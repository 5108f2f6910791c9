# MoleQueue core, modelled in Dafny

MoleQueue runs computational-chemistry jobs on local machines and on remote
clusters. Clients (a Python client and a C++ client) talk to the MoleQueue
server through JSON-RPC 2.0 packets. The server keeps a registry of jobs
and a registry of queues. Each queue hands its jobs to a scheduler: the
local machine, OAR, SLURM, PBS/Torque over SSH, or the ezHPC UIT web
service. This project models the bookkeeping between those layers:

- **Python client correlation** (`PyClient`): packet ids come from a
  counter, and the response table holds one slot per id. Replies and
  notifications are routed apart, and notifications fan out to the
  registered callbacks.
- **JSON-RPC envelopes and transport** (`JsonRpcEnvelope`,
  `JsonRpcTransport`, `LegacyJsonRpc`, `TransportMessage`, `RpcMethods`):
  - the request, response and notification validators, strict and loose;
  - the form and method guess;
  - the table of requests awaiting a reply;
  - the interpretation of batches;
  - the typed `Message` of the transport layer with its parser.
- **Client and server dispatch** (`ClientJsonRpc`, `ServerJsonRpc`,
  `CppClient`, `ServerConnection`): the request builders and the reply
  handlers with their member checks. A reply is answered at most once
  through the reply tables of the C++ client and of a server connection.
- **Job registries** (`AppJobManager`, `LegacyJobManager`, `JobIndex`,
  `JobDataModel`, `JobStates`, `PrototypeJob`): the job list and its id
  maps in both revisions, the `JobData` record and its hash round trip,
  and the prototype `Job` with its keyword replacements.
- **Queues** (`Queues`, `QueueManagers`, `Programs`, `LocalQueues`):
  - programs filed by name, and the failure counter that bounds
    resubmission;
  - the removal of unknown keywords from launch scripts, and the JSON
    settings;
  - the queue registry;
  - the command line and launch template of a program;
  - the local queue's first-in-first-out scheduler, bounded by free cores.
- **Scheduler output** (`QueueScan`, `Oar`, `Slurm`, `Pbs`, `RemoteSsh`,
  `QueueUit`):
  - the parsers of submission and status output;
  - the status request and the handling of its answer, over SSH and over
    UIT;
  - the bookkeeping after a submission;
  - the guard on removing a remote directory.
- **Small structures** (`Logging`, `JobTableFilter`, `IdTypes`,
  `FileSpecification`, `LegacyFileSpec`, `QtJson`, `ActionFactories`):
  - the bounded message log with its error counter;
  - the job table's row filter;
  - identifier conversions;
  - file specifications;
  - variant/JSON conversion;
  - the job-action factory list.

Shared modules model the library behaviour the code relies on:
- `JsonValue` models JsonCpp and QJsonValue values. JsonCpp keeps signed and unsigned integers apart; a QJsonValue number is a double, which the code reads through `toDouble`, the QJsonValue id conversions included (`IdTypes.QJsonToIdType`).
  An absent member read with `QJsonObject::value` is Undefined, and inserting an Undefined value removes the key; the transport message keeps an undefined id apart from null (`TransportMessage.Member`, `TransportMessage.WithId`).
- `QtVariant` models QVariant.
- `TextOps` models QString search, replace and split.
- `FileInfo` models the QFileInfo and QDir path helpers.
- `StringOrder` models QString ordering and QMap key order.
- `ListOps` models QList and QMap helpers.
- `Wrappers` holds the Option/Result types.

Where the repository has two revisions of a file, both are modelled. They
share a module when their bodies agree and use separate modules or members
when they differ.

Side effects outside the modelled state become parameters or recorded
outputs:
- file system answers, SSH exit codes and outputs, whether a process
  starts, and the ideal thread count are parameters;
- signals, packets sent and job-state changes are appended to `events`,
  `sent` or `stateChanges` sequences.

Pointers to jobs are handles (`nat`) into a store of job records.

### What the Python client's code does

The model follows these parts of `python/molequeue/client.py`:
- `_wait_for_response` (lines 177-186) reads the slot and returns it; the
  entry stays in the response table.
- Its loop (lines 180-181) waits again for as long as the slot is `None`;
  the `timeout` only bounds each single wait. `PyClient.Client.WaitForResponse`
  takes the replies that arrive as an input and reports `StillWaiting` when
  none fills the slot.
- `register_notification_callback` (lines 115-118) calls the callback once
  with itself as argument, asserts the result is falsy, then appends it.
  The call runs user code and is not modelled; the append is.
- `_on_notification` (lines 160-162) calls every callback in order and
  catches nothing. The model lists the invocations in order and does not
  run them.
- The error branch of `submit_job_request` (lines 134-138) names the
  undefined `reponse`, so it raises `NameError` (see Findings).
- `_on_response` (lines 151-157) tests `packet_id in self._request_response_map`. Dict keys compare as Python values: the ids 1, 1.0 and True find the same slot, and a list or dict id raises TypeError. `PyClient.KeyOf` gives a decoded value's key.
- `disconnect` (lines 110-113) flushes, stops the loop and closes the
  socket; it does not touch the response table or its waiters.

## Model

| member | source | states |
|---|---|---|
| IdTypes.ToUnsigned64 | molequeue/idtypeutils.h:44 | the static_cast to IdType keeps every value already in 0..2^64-1 and otherwise differs from its argument by a multiple of 2^64 |
| IdTypes.IdTypeToString | molequeue/idtypeutils.h:33-36 | the text is "Invalid" exactly when the id is InvalidId; any other id is spelled in decimal digits that stand for the id |
| IdTypes.DecimalRoundTrip | molequeue/idtypeutils.h:35 | QString::number's decimal digits stand for the number they were made from |
| IdTypes.ReadNumber | molequeue/idtypeutils.h:44 | QString's base-10 reading accepts only non-empty text of an optional sign and digits |
| IdTypes.InLongLong | molequeue/idtypeutils.h:44 | a value toLongLong accepts lies in the signed 64-bit range and is the digits' value, negated after a '-' |
| IdTypes.PaddedReadsAlike | molequeue/idtypeutils.h:44 | white space around a number changes neither what toLongLong nor what toULongLong reads |
| IdTypes.SignedDecimalRead | molequeue/idtypeutils.h:35-44 | a decimal with an optional '-' reads back as its sign and its value |
| IdTypes.SignedDecimal | molequeue/app/queues/queueuit.cpp:94 | QString::number of a signed integer is never empty |
| IdTypes.SignedDecimalRoundTrip | molequeue/app/queues/queueuit.cpp:94-118 | QString::number followed by toLongLong gives back every signed 64-bit value |
| IdTypes.StringToIdType | molequeue/idtypeutils.h:40-46 | text that toLongLong refuses (empty, not a signed decimal after trimming, or outside the signed 64-bit range) gives InvalidId |
| IdTypes.PaddedIdReadsAlike | molequeue/idtypeutils.h:40-46 | white space around an id changes nothing: " 5 " reads as 5 |
| IdTypes.DecimalIdRead | molequeue/idtypeutils.h:33-46 | the decimal spelling of a valid id is read back by toLongLong exactly when the id is below 2^63 |
| IdTypes.LetterFirstRead | molequeue/idtypeutils.h:33-46 | "Invalid", and any text starting with that letter, is refused by toLongLong |
| IdTypes.NonNumericIsInvalid | molequeue/idtypeutils.h:40-46 | text that is empty once trimmed, or that after trimming starts with neither a digit nor a sign, is never read as an id |
| IdTypes.StringRoundTrip | molequeue/idtypeutils.h:33-46 | idTypeToString followed by toIdType gives the id back if and only if it is InvalidId or below 2^63; larger ids overflow toLongLong and come back as InvalidId |
| IdTypes.AsLargestInt | molequeue/idtypeutils.h:65 | asLargestInt gives a signed integer as itself, and an unsigned one as itself exactly when it is below 2^63; from 2^63 up it throws |
| IdTypes.JsonToIdType | molequeue/idtypeutils.h:62-67 | a non-integral JSON value gives InvalidId; an integral value in 0..2^63-1 gives itself; an unsigned value from 2^63 up makes asLargestInt throw |
| IdTypes.IdTypeToJson | molequeue/idtypeutils.h:71-74 | the JSON is null exactly for InvalidId, and otherwise an integer equal to the id |
| IdTypes.JsonRoundTrip | molequeue/idtypeutils.h:62-74 | idTypeToJson followed by toIdType gives the id back if and only if it is InvalidId or below 2^63; every larger id is written as an unsigned value on which asLargestInt throws |
| IdTypes.QJsonToIdType | molequeue/app/queue.cpp:268 | the QJsonValue overload of toIdType: anything but a number gives InvalidId; a number (a double) in range gives the nearest id, halves rounded up |
| IdTypes.IdTypeToQJson | molequeue/app/queue.cpp:214 | the QJsonValue overload of idTypeToJson: null exactly for InvalidId, otherwise a double equal to the id |
| IdTypes.QJsonRoundTrip | molequeue/app/queue.cpp:209-271 | every id, InvalidId included, survives the QJsonValue idTypeToJson followed by toIdType |
| IdTypes.QJsonReadsIntegers | molequeue/app/queues/local.cpp:112-117 | an id stored as an integer and the same id stored as a double read back as that id |
| IdTypes.VariantToIdType | molequeue/idtypeutils.h:78-81 | variants that cannot convert (invalid, list, hash, other) give InvalidId; a ULongLong gives its own value; text goes through TextToIdType |
| IdTypes.InULongLong | molequeue/idtypeutils.h:78-81 | a value toULongLong accepts has no '-' sign (even "-0" fails) and is the digits' value |
| IdTypes.TextToIdType | molequeue/idtypeutils.h:78-81 | a string or byte-array variant that toULongLong refuses converts to 0, not to InvalidId |
| IdTypes.IdTypeToVariant | molequeue/idtypeutils.h:85-88 | the variant is invalid exactly for InvalidId, and otherwise a ULongLong holding the id |
| IdTypes.VariantRoundTrip | molequeue/idtypeutils.h:78-88 | every id survives idTypeToVariant followed by toIdType |
| JobStates.Ordinal | molequeue/jobdata.cpp:87-88 | the states take the integers -1..9, and -1 only for Unknown |
| JobStates.FromOrdinal | molequeue/jobdata.cpp:87-88 | the cast inverts Ordinal on -1..9; any other number reads as Unknown |
| JobStates.OrdinalRoundTrip | molequeue/jobdata.cpp:87-88 | a state stored as its integer reads back as the same state |
| JobStates.FromName | molequeue/jsonrpc.cpp:1215-1216 | stringToJobState answers a state other than Unknown only for that state's own name |
| JobStates.NameRoundTrip | molequeue/jsonrpc.cpp:300-301 | a state sent as its name (jobStateToString) is read back as the same state |
| QtJson.CString | molequeue/qtjson.cpp:59 | a byte array read as a C string is its prefix up to, and without, the first NUL |
| QtJson.QtToJson | molequeue/qtjson.cpp:23-63 | lists become arrays of the same length, hashes objects with the same keys, and invalid or unsupported variants null |
| QtJson.JsonToQt | molequeue/qtjson.cpp:65-99 | arrays become lists of the same length, objects hashes with the same keys, and exactly null becomes an invalid variant |
| QtJson.VariantRoundTrip | molequeue/qtjson.cpp:23-99 | a variant without byte arrays or unsupported types comes back from qtToJson then jsonToQt unchanged except that Int and UInt widen to LongLong and ULongLong |
| QtJson.JsonRoundTrip | molequeue/qtjson.cpp:23-99 | every JSON value comes back unchanged from jsonToQt then qtToJson |
| RpcMethods.MapMethodNameToInt | molequeue/clientjsonrpc.cpp:114-128 | a name maps to a method only if it is that method's wire name; every other name is unrecognized (serverjsonrpc.cpp:160-174 is the same code) |
| RpcMethods.MapMethodNameRoundTrip | molequeue/serverjsonrpc.cpp:160-174 | each of the five methods' wire names maps back to that method |
| RpcMethods.WireNamesDistinct | molequeue/serverjsonrpc.cpp:160-174 | two different methods never share a wire name |
| JsonRpcEnvelope.ScanMembers | molequeue/transport/jsonrpc.cpp:213-236 | after the member walk, a known name's flag is set exactly when the packet has that member, and the extra members are exactly the names outside the known four |
| JsonRpcEnvelope.StrictImpliesLoose | molequeue/transport/jsonrpc.cpp:206-429 | a packet that validateRequest, validateResponse or validateNotification accepts in strict mode is accepted in loose mode too |
| JsonRpcEnvelope.LooseWithoutExtrasIsStrict | molequeue/transport/jsonrpc.cpp:206-429 | the missing `jsonrpc` member and extra members are the only rejections strict mode adds |
| JsonRpcEnvelope.RequestNotificationExclusive | molequeue/transport/jsonrpc.cpp:206-274 | no packet is both a valid request and a valid notification, in either mode (a request needs an `id`, a notification must not have one) |
| JsonRpcEnvelope.ResponseHasExactlyOne | molequeue/transport/jsonrpc.cpp:285-356 | a valid response has exactly one of `result` and `error`, and has an `id` |
| JsonRpcEnvelope.EmptyRequest | molequeue/transport/jsonrpc.cpp:431-439 | the skeleton has exactly the members jsonrpc, method and id, with version "2.0" and the given id |
| JsonRpcEnvelope.EmptyResponse | molequeue/transport/jsonrpc.cpp:441-449 | the skeleton has exactly the members jsonrpc, result and id, with version "2.0" and the given id |
| JsonRpcEnvelope.EmptyError | molequeue/transport/jsonrpc.cpp:451-475 | the skeleton has exactly jsonrpc, error and id; the error member is null because the error object built there is never stored |
| JsonRpcEnvelope.EmptyNotification | molequeue/transport/jsonrpc.cpp:477-484 | the skeleton has exactly jsonrpc and method, and never an id |
| JsonRpcEnvelope.EmptyRequestNeedsMethod | molequeue/transport/jsonrpc.cpp:431-439 | a request skeleton whose method is still null fails validateRequest |
| JsonRpcEnvelope.BuiltRequestIsValid | molequeue/transport/jsonrpc.cpp:206-274 | a request skeleton given a method name and object or array params is strictly valid |
| JsonRpcEnvelope.BuiltNotificationIsValid | molequeue/transport/jsonrpc.cpp:367-429 | a notification skeleton given a method name and object or array params is strictly valid |
| JsonRpcEnvelope.BuiltResponseIsValid | molequeue/transport/jsonrpc.cpp:285-356 | a response skeleton with a well-formed id is strictly valid whatever result it carries |
| JsonRpcEnvelope.BuiltErrorIsValid | molequeue/transport/jsonrpc.cpp:285-356 | an error skeleton filled with an integral code and a string message is strictly valid |
| JsonRpcTransport.ValidRequestGuessedRequest | molequeue/transport/jsonrpc.cpp:486-503 | guessPacketForm calls a valid request with a non-null id a request |
| JsonRpcTransport.ValidNotificationGuessed | molequeue/transport/jsonrpc.cpp:486-503 | guessPacketForm calls a valid notification a notification |
| JsonRpcTransport.ValidResponseGuessed | molequeue/transport/jsonrpc.cpp:486-503 | a valid response without a method is guessed a result when its result is non-null and an error when it has an error member |
| JsonRpcTransport.MethodTakesPrecedence | molequeue/transport/jsonrpc.cpp:486-503 | an object with a non-null method is guessed a request or a notification whatever result or error it holds |
| JsonRpcTransport.AsLargestUInt | molequeue/transport/jsonrpc.cpp:194 | an unsigned value reads as itself; strings, arrays and objects make asLargestUInt throw |
| JsonRpcTransport.GuessPacketMethod | molequeue/transport/jsonrpc.cpp:505-542 | a reply without a method throws (asLargestUInt on a negative id) exactly when its id is a negative integer; one whose id is a 64-bit unsigned integer resolves to the method registered for that id, and is ignored when none is |
| JsonRpcTransport.RegisteredReplyResolves | molequeue/transport/jsonrpc.cpp:505-542 | a result whose id was registered with a method resolves to that method |
| JsonRpcTransport.UnregisteredReplyIgnored | molequeue/transport/jsonrpc.cpp:505-542 | a result whose id is not pending is ignored |
| JsonRpcTransport.ValidatedForm | molequeue/transport/jsonrpc.cpp:157-175 | a packet is treated as a request, a notification or a reply only when the matching validator (loose mode) accepts it |
| JsonRpcTransport.InterpretSingle | molequeue/transport/jsonrpc.cpp:135-195 | interpreting one packet changes the pending table only when the packet is a valid result or error; a reply with a negative id throws before any signal and changes nothing |
| JsonRpcTransport.NegativeIdStopsBatch | molequeue/transport/jsonrpc.cpp:139-155 | a batch whose first packet is a reply with a negative id throws there: no signal, the pending table unchanged |
| JsonRpcTransport.InterpretBatchStopped | molequeue/transport/jsonrpc.cpp:135-195 | once a batch element throws on its id, the elements after it are not interpreted |
| JsonRpcTransport.ReplyLeavesPending | molequeue/transport/jsonrpc.cpp:190-194 | after a valid result or error whose id is a non-negative 64-bit integer, that id is no longer pending |
| JsonRpcTransport.RegisteredReplyHandledOnce | molequeue/transport/jsonrpc.cpp:135-195 | a registered request's reply is handed to that method once and then forgotten, so a second copy of the reply makes no call |
| JsonRpcTransport.JsonRpc.constructor | molequeue/transport/jsonrpc.cpp:579-587 | a new JsonRpc has no pending requests |
| JsonRpcTransport.JsonRpc.RegisterRequest | molequeue/transport/jsonrpc.cpp:579-582 | after registerRequest the id resolves to the method, and every other entry of the table is kept |
| JsonRpcTransport.JsonRpc.RegisterReply | molequeue/transport/jsonrpc.cpp:584-587 | after registerReply the id no longer resolves, and every other entry is kept |
| JsonRpcTransport.JsonRpc.InterpretIncomingJsonRpc | molequeue/transport/jsonrpc.cpp:135-195 | the calls made, the new pending table and the thrown flag are those of Interpret on the old table, a batch element by element |
| JsonRpcTransport.JsonRpc.InterpretIncomingPacket | molequeue/transport/jsonrpc.cpp:117-133 | data that does not parse makes exactly one handleUnparsablePacket call and changes nothing; parsed data is interpreted as above |
| LegacyJsonRpc.JobRequestParams | molequeue/jsonrpc.cpp:59-93 | the submitJob params carry the input as `inputAsPath` exactly when a path is set and as `inputAsString` exactly when none is, never both, each with the request's own text |
| LegacyJsonRpc.SubmissionConfirmation | molequeue/jsonrpc.cpp:94-118 | the confirmation is a strictly valid response whose result holds exactly moleQueueJobId, queueJobId and workingDirectory |
| LegacyJsonRpc.ErrorResponse | molequeue/jsonrpc.cpp:120-198 | every overload gives a strictly valid response (for a well-formed id) whose error holds the code and message, and a data member exactly when data is given |
| LegacyJsonRpc.StateChangeNotification | molequeue/jsonrpc.cpp:289-313 | the job-state notification is strictly valid |
| LegacyJsonRpc.QueueObject | molequeue/jsonrpc.cpp:257-287 | every queue of the manager has a member in the queue-list result |
| LegacyJsonRpc.GenerateQueueList | molequeue/jsonrpc.cpp:257-287 | no queue manager gives no packet; otherwise the packet is the queue-list response for the given id |
| LegacyJsonRpc.MethodNameToCode | molequeue/jsonrpc.cpp:890-903 | the names known are those of the later classes minus lookupJob, which is unrecognized here |
| LegacyJsonRpc.GuessPacketMethod | molequeue/jsonrpc.cpp:873-926 | a reply without a method whose non-null id fails isUInt is ignored; one whose id passes resolves to the registered method, or is ignored when none is registered |
| LegacyJsonRpc.BuiltRequestsResolve | molequeue/jsonrpc.cpp:59-255 | the submitJob, cancelJob and listQueues requests this class builds are classified as those methods |
| LegacyJsonRpc.KnownNames | molequeue/jsonrpc.cpp:890-903 | the three request names this class sends are among those it recognizes |
| LegacyJsonRpc.RequestResolvesByName | molequeue/jsonrpc.cpp:873-903 | a request built on the skeleton is classified by its method name alone |
| LegacyJsonRpc.ListRequestResolvesByName | molequeue/jsonrpc.cpp:873-903 | a request skeleton given only a method name (the listQueues request) is classified by that name |
| LegacyJsonRpc.Dispatch | molequeue/jsonrpc.cpp:368-446 | listQueues, submitJob and cancelJob reach their handlers for requests, results and errors, jobStateChanged only for notifications, and every other combination is an invalid request |
| LegacyJsonRpc.Classified | molequeue/jsonrpc.cpp:345-461 | an object makes at most one handler call |
| LegacyJsonRpc.InterpretSingle | molequeue/jsonrpc.cpp:329-462 | corrected: a single value that is not an object is reported once as an invalid request with a null id and changes nothing |
| LegacyJsonRpc.NonObjectReportedTwice | molequeue/jsonrpc.cpp:341-343 | as written, the parsed value `null` is reported as an invalid request twice (the report does not return and null falls through the classification); corrected, once |
| LegacyJsonRpc.ScalarAssertsAsWritten | molequeue/jsonrpc.cpp:341-343 | as written, a number, a string or a boolean fails JsonCpp's assertion in handleInvalidRequest's `id` read: nothing is reported and the interpretation stops; corrected, it is reported once |
| LegacyJsonRpc.AgreeOnObjects | molequeue/jsonrpc.cpp:329-462 | the corrected and as-written interpretations agree on every object |
| LegacyJsonRpc.InterpretBatchStopped | molequeue/jsonrpc.cpp:331-339 | once an element of a batch throws, the elements after it are not interpreted |
| LegacyJsonRpc.InterpretPacket | molequeue/jsonrpc.cpp:315-327 | corrected: an unparsable packet is reported once and changes nothing |
| LegacyJsonRpc.UnparsableReportedThrice | molequeue/jsonrpc.cpp:315-343 | as written, bytes that leave a null root (such as `x`) are reported as unparsable and then twice more as an invalid request; corrected, once |
| LegacyJsonRpc.UnparsableObjectReportedTwice | molequeue/jsonrpc.cpp:315-343 | as written, bytes that leave an empty object root (such as `{`) are reported as unparsable and then once as an invalid request; corrected, once |
| LegacyJsonRpc.ProgramsNeverRead | molequeue/jsonrpc.cpp:979-991 | as written, a queue object that carries a program array is dropped from the list altogether |
| LegacyJsonRpc.NullProgramEntries | molequeue/jsonrpc.cpp:979-991 | as written, the only entries the loop keeps are unnamed queues without programs |
| LegacyJsonRpc.AsWrittenRejectsGeneratedList | molequeue/jsonrpc.cpp:961-972 | as written, the handler calls every queue list this same class generates ill-formed, because it wants an array and generateQueueList writes an object |
| LegacyJsonRpc.AsWrittenReportsNoPrograms | molequeue/jsonrpc.cpp:961-1000 | as written, whatever array result arrives, every emitted entry is unnamed and has no programs, because the braceless `continue` after `if (programArray.isNull())` runs for every element |
| LegacyJsonRpc.ListQueuesResult | molequeue/jsonrpc.cpp:961-1020 | corrected: an emitted list holds exactly the queues named in the result object |
| LegacyJsonRpc.QueueObjectRead | molequeue/jsonrpc.cpp:257-287 | reading the generated queue object gives each queue's last program list |
| LegacyJsonRpc.QueueListRoundTrip | molequeue/jsonrpc.cpp:257-287 | corrected, the handler reads back exactly the queues and programs generateQueueList wrote, under the packet's id |
| LegacyJsonRpc.JsonRpc.constructor | molequeue/jsonrpc.cpp:1221-1234 | a new JsonRpc has no pending requests |
| LegacyJsonRpc.JsonRpc.GenerateJobRequest | molequeue/jsonrpc.cpp:59-93 | the submitJob packet is built and its id now awaits a submitJob reply, every other pending entry kept |
| LegacyJsonRpc.JsonRpc.GenerateJobCancellation | molequeue/jsonrpc.cpp:200-221 | the cancelJob packet is built and its id now awaits a cancelJob reply |
| LegacyJsonRpc.JsonRpc.GenerateQueueListRequest | molequeue/jsonrpc.cpp:240-255 | the listQueues packet is built and its id now awaits a listQueues reply |
| LegacyJsonRpc.JsonRpc.InterpretIncomingJsonRpc | molequeue/jsonrpc.cpp:329-462 | the calls, the new pending table and the thrown flag are those of the corrected Interpret on the old table |
| LegacyJsonRpc.JsonRpc.InterpretIncomingPacket | molequeue/jsonrpc.cpp:315-327 | the calls and the new table are those of the corrected InterpretPacket |
| LegacyJsonRpc.RegisteredReplyHandledOnce | molequeue/jsonrpc.cpp:329-462 | the reply to a registered request whose id fits 32 bits is dispatched to that request's method once, and the id leaves the table |
| LegacyJsonRpc.WideReplyIdIgnored | molequeue/jsonrpc.cpp:914-916 | a reply whose id does not fit 32 bits is ignored even when its id is pending |
| ClientJsonRpc.AsId | molequeue/clientjsonrpc.cpp:229 | an integral id within 0..2^64-1 reads as itself; a negative integer makes asLargestUInt throw |
| ClientJsonRpc.StringItems | molequeue/clientjsonrpc.cpp:272-276 | the program list holds exactly the string entries of the array, no more entries than it |
| ClientJsonRpc.QueueListOf | molequeue/clientjsonrpc.cpp:245-280 | the queue list names exactly the members of the result object |
| ClientJsonRpc.ProgramList | molequeue/clientjsonrpc.cpp:270-276 | the program loop keeps the string entries, in order |
| ClientJsonRpc.ReadQueueList | molequeue/clientjsonrpc.cpp:240-280 | the queue loop builds the queue list that QueueListOf describes: a null or non-array entry gives an empty list, an array its string entries |
| ClientJsonRpc.ListQueuesResult | molequeue/clientjsonrpc.cpp:227-283 | a queue list is announced only when the result is an object |
| ClientJsonRpc.HandleListQueuesResult | molequeue/clientjsonrpc.cpp:227-283 | the handler reacts as ListQueuesResult says |
| ClientJsonRpc.SubmitJobResult | molequeue/clientjsonrpc.cpp:285-309 | a result that is neither an object nor null makes JsonCpp's member read assert (Threw); a successful submission is announced only when the result holds an integral moleQueueId and a string workingDirectory |
| ClientJsonRpc.SubmitJobError | molequeue/clientjsonrpc.cpp:311-330 | an error that is neither an object nor null makes the member read assert (Threw); a failed submission is announced only when the error holds an integral code and a string message |
| ClientJsonRpc.CancelJobResult | molequeue/clientjsonrpc.cpp:332-351 | a cancellation confirmation is announced only when the result is integral |
| ClientJsonRpc.CancelJobError | molequeue/clientjsonrpc.cpp:353-375 | an error that is neither an object nor null makes the member read assert (Threw); a cancellation error is announced only when the error carries an integral code, a string message and an integral data id |
| ClientJsonRpc.LookupJobResult | molequeue/clientjsonrpc.cpp:377-394 | a lookup response is announced only for an object result, and its hash has exactly the result's keys |
| ClientJsonRpc.LookupJobError | molequeue/clientjsonrpc.cpp:396-414 | an error that is neither an object nor null makes the member read assert (Threw); a lookup error is announced only when the error carries an integral code, a string message and an integral data id |
| ClientJsonRpc.JobStateChangedNotification | molequeue/clientjsonrpc.cpp:416-442 | a state change is announced only when params is an object with an integral moleQueueId and string old and new states |
| ClientJsonRpc.HandlePacket | molequeue/clientjsonrpc.cpp:130-225 | a packet is an invalid request exactly when its form does not fit its method: listQueues takes only results, jobStateChanged only notifications, the others results and errors |
| ClientJsonRpc.JobRequestIsValid | molequeue/clientjsonrpc.cpp:37-55 | the submitJob request is strictly valid and is classified as submitJob |
| ClientJsonRpc.IdRequestsAreValid | molequeue/clientjsonrpc.cpp:57-97 | the cancelJob and lookupJob requests are strictly valid and classified as those methods |
| ClientJsonRpc.IdRequestIsValid | molequeue/clientjsonrpc.cpp:57-97 | a request built with a method's wire name and object params is strictly valid and classified as that method |
| ClientJsonRpc.QueueListRequestIsValid | molequeue/clientjsonrpc.cpp:99-112 | the listQueues request is strictly valid and classified as listQueues |
| ClientJsonRpc.RequestGuessedByName | molequeue/clientjsonrpc.cpp:114-128 | a request built on the skeleton is classified by mapMethodNameToInt of its name |
| ClientJsonRpc.ClientJsonRpc.constructor | molequeue/clientjsonrpc.cpp:37-112 | a new client starts with no pending requests |
| ClientJsonRpc.ClientJsonRpc.GenerateJobRequest | molequeue/clientjsonrpc.cpp:37-55 | the packet is the submitJob request for the job's hash, and its id now awaits a submitJob reply |
| ClientJsonRpc.ClientJsonRpc.GenerateJobCancellation | molequeue/clientjsonrpc.cpp:57-76 | the packet is the cancelJob request, and its id now awaits a cancelJob reply |
| ClientJsonRpc.ClientJsonRpc.GenerateLookupJobRequest | molequeue/clientjsonrpc.cpp:78-97 | the packet is the lookupJob request, and its id now awaits a lookupJob reply |
| ClientJsonRpc.ClientJsonRpc.GenerateQueueListRequest | molequeue/clientjsonrpc.cpp:99-112 | the packet is the listQueues request, and its id now awaits a listQueues reply |
| ClientJsonRpc.ReplyReachesRegisteredHandler | molequeue/clientjsonrpc.cpp:130-225 | a non-null result to a registered request reaches handlePacket with that request's method, and nothing else is called |
| ServerJsonRpc.IdParam | molequeue/serverjsonrpc.cpp:275-307 | a moleQueueId is read exactly when params is an object whose moleQueueId is integral |
| ServerJsonRpc.HandleMessage | molequeue/serverjsonrpc.cpp:176-253 | a message is an invalid request exactly unless it is a request for one of the four request methods; a submitJob request is announced exactly when its params is an object |
| ServerJsonRpc.LookupJobResponse | molequeue/serverjsonrpc.cpp:85-111 | an unknown job gives the error with code 0, "Unknown MoleQueue ID" and the id as data; a known job gives its hash as the result and no error |
| ServerJsonRpc.ProgramArray | molequeue/serverjsonrpc.cpp:119-123 | a queue's program array has one entry per program |
| ServerJsonRpc.StateChangeNotification | molequeue/serverjsonrpc.cpp:138-158 | the state-change packet is a jobStateChanged notification with no id |
| ServerJsonRpc.ProgramArrayRoundTrip | molequeue/serverjsonrpc.cpp:119-123 | the client reads back exactly the programs the server wrote, in order |
| ServerJsonRpc.QueueListRoundTrip | molequeue/serverjsonrpc.cpp:113-136 | the client announces exactly the queue list the server sent, under the packet's id |
| ServerJsonRpc.SubmissionRoundTrip | molequeue/serverjsonrpc.cpp:35-53 | the client announces a successful submission with the id and working directory the server confirmed |
| ServerJsonRpc.CancellationRoundTrip | molequeue/serverjsonrpc.cpp:55-67 | the client announces the cancellation of the job the server confirmed |
| ServerJsonRpc.CancellationErrorRoundTrip | molequeue/serverjsonrpc.cpp:69-84 | a cancellation error with a non-negative code reaches the client whole; a negative code makes the client's asLargestUInt throw |
| ServerJsonRpc.LookupRoundTrip | molequeue/serverjsonrpc.cpp:85-111 | a known job's hash reaches the client, its 32-bit integers widened; an unknown job reaches it as a lookup error for that id |
| ServerJsonRpc.StateChangeRoundTrip | molequeue/serverjsonrpc.cpp:138-158 | the client announces the job id and both states the server sent |
| ServerJsonRpc.IdRequestRoundTrip | molequeue/serverjsonrpc.cpp:275-307 | the client's cancelJob and lookupJob requests reach the server as requests for the same job id |
| ServerJsonRpc.JobRequestRoundTrip | molequeue/serverjsonrpc.cpp:260-273 | the client's submitJob request reaches the server as the same option hash, its 32-bit integers widened |
| ServerJsonRpc.QueueListExchange | molequeue/serverjsonrpc.cpp:113-136 | a queue list sent in reply to a pending listQueues request is handed to the client's listQueues handler, which announces the same queues, and the id stops pending |
| CppClient.LookupId | molequeue/client.cpp:188-189 | a hash without moleQueueId gives InvalidId; with one, the id is the one JobData reads from the hash |
| CppClient.Client.constructor | molequeue/client.cpp:31-43 | a new client has an empty job manager, no outstanding submissions or cancellations, an empty queue list, and has sent nothing |
| CppClient.Client.RequestHashReadBack | molequeue/client.cpp:59-65 | the hash sent for a job reads back as that job's data; a dangling job handle sends an empty hash |
| CppClient.Client.RequestId | molequeue/client.cpp:67-73 | a dangling job handle has the id InvalidId |
| CppClient.Client.SubmitJobRequest | molequeue/client.cpp:59-65 | the packet id now maps to the job in the submission table, and the submitJob packet for the job's hash is sent |
| CppClient.Client.CancelJob | molequeue/client.cpp:67-73 | the packet id now maps to the job in the cancellation table, and the cancelJob packet for the job's id is sent |
| CppClient.Client.LookupJob | molequeue/client.cpp:75-81 | the lookupJob packet is sent and neither table changes |
| CppClient.Client.RequestQueueListUpdate | molequeue/client.cpp:285-289 | the listQueues packet is sent and neither table changes |
| CppClient.Client.QueueListReceived | molequeue/client.cpp:83-87 | the queue list becomes the one received and queueListUpdated is announced with it |
| CppClient.Adopted | molequeue/client.cpp:107-110 | an adopted job takes the MoleQueue id and the directory, its output directory defaults to that directory when empty, and every other member is kept |
| CppClient.Client.SuccessfulSubmissionReceived | molequeue/client.cpp:89-114 | an unknown packet id changes nothing; a known one leaves the table, and when its job exists that job takes the MoleQueue id and the absolute path of the working directory (the output directory defaults to it), is found by that id, and jobSubmitted(true) is announced |
| CppClient.Client.AdoptSubmission | molequeue/client.cpp:105-110 | the job takes the MoleQueue id and the working directory as QDir::absolutePath gives it (relative to the current directory, cleaned), an empty output directory becomes that path, and the job is found by its new id |
| CppClient.Client.FailedSubmissionReceived | molequeue/client.cpp:116-134 | the packet id leaves the submission table, and jobSubmitted(false, message) is announced only when it named an existing job |
| CppClient.Client.CancellationReceived | molequeue/client.cpp:136-183 | the packet id leaves the cancellation table, and jobCanceled is announced (with the message on failure) only when it named an existing job |
| CppClient.Client.LookupJobResponseReceived | molequeue/client.cpp:185-207 | a hash without a valid id changes nothing; otherwise the job with that id, or a new one, takes the hash, is found by the id, and lookupJobComplete is announced |
| CppClient.Client.StoreLookedUpJob | molequeue/client.cpp:196-203 | an existing job with the id is updated from the hash in place; otherwise a new job is appended; either way the id finds it |
| CppClient.Client.LookupJobErrorReceived | molequeue/client.cpp:209-218 | an InvalidId is only warned about; any other id announces an empty lookup result for it |
| CppClient.Client.JobStateChangeReceived | molequeue/client.cpp:220-234 | an unknown id changes nothing; a known job takes the new state and jobStateChanged is announced with both states |
| ServerConnection.Connection.constructor | molequeue/serverconnection.cpp:36-55 | a new connection serves the given job manager, with every lookup table empty and nothing sent or announced |
| ServerConnection.Connection.QueueListRequestReceived | molequeue/serverconnection.cpp:136-140 | the request's packet id joins the end of the listQueues queue and queueListRequested is announced |
| ServerConnection.Connection.SendQueueList | molequeue/serverconnection.cpp:61-72 | with no pending listQueues request nothing is sent; otherwise the oldest pending packet id is answered with the queue list and leaves the queue |
| ServerConnection.Connection.JobSubmissionRequestReceived | molequeue/serverconnection.cpp:142-151 | the new job is appended to the job manager, its MoleQueue id maps to the packet id and joins the owned ids, and jobSubmissionRequested is announced |
| ServerConnection.Connection.JobCancellationRequestReceived | molequeue/serverconnection.cpp:153-158 | the MoleQueue id maps to the packet id in the cancellation table and jobCancellationRequested is announced |
| ServerConnection.Connection.SendSuccessfulSubmissionResponse | molequeue/serverconnection.cpp:74-89 | an unknown MoleQueue id sends nothing; a known one is confirmed to its request's packet id and leaves the table |
| ServerConnection.Connection.SendFailedSubmissionResponse | molequeue/serverconnection.cpp:91-109 | an unknown MoleQueue id sends nothing; a known one gets the error response with its code and message under its packet id and leaves the table |
| ServerConnection.Connection.SendSuccessfulCancellationResponse | molequeue/serverconnection.cpp:111-125 | an unknown MoleQueue id sends nothing; a known one is confirmed to its cancellation request's packet id and leaves the table |
| ServerConnection.Connection.SendJobStateChangeNotification | molequeue/serverconnection.cpp:127-134 | the state-change notification is sent and no table changes |
| PyClient.Index | python/molequeue/client.py:141 | Python's `v[k]` gives the member when the key is there and raises otherwise |
| PyClient.RequestFrame | python/molequeue/client.py:126-128 | the request frame carries the packet id and the method name |
| PyClient.KeyOf | python/molequeue/client.py:152 | a value is a dict key unless it is a list or a dict (unhashable); a number of any JSON kind, a boolean included, is the key of its numeric value |
| PyClient.NumbersShareKeys | python/molequeue/client.py:152-154 | the ids n, n.0 and (for n >= 0) an unsigned n are one key, and True and False are the keys 1 and 0 |
| PyClient.DistinctIdsDistinctKeys | python/molequeue/client.py:152-154 | different integer packet ids are different keys, and no string is the key of a packet id |
| PyClient.Filled | python/molequeue/client.py:151-157 | storing a reply fills the slot of the key its id equals only when that key is registered, adds no key, and leaves every other slot unchanged; an unhashable id changes nothing |
| PyClient.FilledAll | python/molequeue/client.py:151-157 | storing any sequence of replies never adds or removes a registered id |
| PyClient.FilledAllStep | python/molequeue/client.py:151-157 | storing one more reply is storing the earlier ones and then that one |
| PyClient.ErrorReplyRaisesNameError | python/molequeue/client.py:134-138 | as written, every error reply raises NameError for the misspelt `reponse`, never JobRequestException |
| PyClient.SubmitReply | python/molequeue/client.py:133-141 | corrected: an error reply with a code and a message raises JobRequestException carrying the reply's id, code and message; a value is returned only for a reply without an error, and it is the result's moleQueueId |
| PyClient.SubmitReplyAgreesWithoutError | python/molequeue/client.py:133-141 | the corrected and as-written endings agree on every reply without an error member |
| PyClient.ErrorBranchTypoFixed | python/molequeue/client.py:134-138 | with only `reponse` put right, an error object without an `id` member raises KeyError('id') |
| PyClient.TypoFixAloneRaisesKeyError | python/molequeue/client.py:134-138 | a JSON-RPC 2.0 error object (code and message only) still raises KeyError and never JobRequestException once only the misspelling is put right, which is why the corrected ending reads the response's own `id` |
| PyClient.Client.constructor | python/molequeue/client.py:88-93 | a new client's counter is 0, its response table and callback list are empty, and it has sent nothing |
| PyClient.Client.RegisterNotificationCallback | python/molequeue/client.py:115-118 | the callback is appended after the earlier ones |
| PyClient.Client.NextPacketId | python/molequeue/client.py:164-168 | each id is one more than the last one handed out, so ids start at 1 and strictly increase, and the counter equals the id returned |
| PyClient.Client.SendRequest | python/molequeue/client.py:170-175 | the id is registered with an empty slot before the frame is sent, and the frame is the last one sent |
| PyClient.Client.OnResponse | python/molequeue/client.py:151-157 | a list or dict id raises TypeError and changes nothing; otherwise the slot of the registered key the id equals (1, 1.0 and True alike) takes the message, and an unknown id changes nothing |
| PyClient.Client.OnNotification | python/molequeue/client.py:160-162 | every registered callback is called once with the message, in registration order |
| PyClient.ContainsId | python/molequeue/client.py:192 | Python's `'id' in v` is a key test on a dict, and raises TypeError exactly when the value is neither a dict, a list nor a string |
| PyClient.Client.OnRecv | python/molequeue/client.py:188-197 | a frame whose `'id' in` test raises (a number, a bool, null), or whose `id` is a list or a dict, raises TypeError, calls nothing and leaves the table alone; a frame with a hashable `id` is stored in the slot of the registered key it equals and calls no callback; a frame without one leaves the table alone and goes to every callback in order |
| PyClient.Client.WaitForResponse | python/molequeue/client.py:177-186 | an unregistered id raises KeyError; the wait ends with the stored reply as soon as the id's slot is filled, and otherwise keeps waiting after every arrival is stored |
| PyClient.Client.SubmitJobRequest | python/molequeue/client.py:123-141 | the next packet id is taken, the submitJob frame with it is sent and registered, and a reply, once stored, ends the call as SubmitReply says |
| TransportMessage.Blank | molequeue/transport/message.cpp:41-74 | a message made for a type has that type, error code 0 and no raw JSON |
| TransportMessage.ToJsonObject | molequeue/transport/message.cpp:286-333 | a notification carries no id; requests and notifications carry params exactly when they are a non-empty array or object; requests, responses and errors carry their id exactly when it is defined, and an undefined id (a reply parsed without one) is left out as QJsonObject::insert drops it; an error's error object has data exactly when data is set; an invalid message is an empty object |
| TransportMessage.EnvelopeErrors | molequeue/transport/message.cpp:388-413 | no envelope error is found exactly when jsonrpc is the string "2.0", an id or a method is present, and a present method is a string |
| TransportMessage.RequestErrors | molequeue/transport/message.cpp:464-503 | no request error is found exactly when the method is a string, an id is present, and params, when present, is an array or an object |
| TransportMessage.ErrorResponseOf | molequeue/transport/message.cpp:363-372 | a request, raw or invalid message answers with an error of the same id and method; any other type gives an invalid message |
| TransportMessage.InvalidRequestReply | molequeue/transport/message.cpp:416-426 | the reply to a malformed raw message is an error with code -32600, message "Invalid request", and the offending JSON under "request" in its data |
| TransportMessage.ReadError | molequeue/transport/message.cpp:526-590 | the error member is read without complaint exactly when it is an object with a numeric code within 1e-5 of its truncation toward zero (so 2.999999 is refused) and a string message |
| TransportMessage.InterpretError | molequeue/transport/message.cpp:526-590 | the message becomes an error with the looked-up method and the JSON's id, undefined when the JSON has none; an ill-formed error member becomes code -32000, "Server error", with the original member kept under origMessage |
| TransportMessage.ParseFields | molequeue/transport/message.cpp:380-449 | a message that is not raw is left alone and parses; a failed parse keeps the message and yields a -32600 error reply; an envelope error always fails |
| TransportMessage.ParseClassification | molequeue/transport/message.cpp:430-448 | a well-formed raw message with result parses as a response, else with error as an error, else without id as a notification, else as a request when its request fields are well formed |
| TransportMessage.UnstructuredParamsRejected | molequeue/transport/message.cpp:464-503 | a request whose params is neither an array nor an object fails to parse |
| TransportMessage.MalformedErrorStillParses | molequeue/transport/message.cpp:526-590 | an error with an ill-formed error member still parses, as a -32000 "Server error" keeping the original member |
| TransportMessage.RequestRoundTrip | molequeue/transport/message.cpp:286-333 | a request written with toJsonObject parses back as a request with the same method, id and the params it sent; one whose id is undefined is written without it and parses back as a notification |
| TransportMessage.NotificationRoundTrip | molequeue/transport/message.cpp:286-333 | a notification written out parses back as a notification with the same method and the params it sent, and no id |
| TransportMessage.ResponseRoundTrip | molequeue/transport/message.cpp:286-333 | a response written out parses back as a response with the same id and result, and the looked-up method; one whose id is undefined is written with neither id nor method and is rejected |
| TransportMessage.ReplyIdWrittenBack | molequeue/transport/message.cpp:517-530 | a parsed result or error is written back with an "id" exactly when its packet had one, and then the same id: `{"jsonrpc":"2.0","method":"m","result":5}` is written back without "id" |
| TransportMessage.ErrorRoundTrip | molequeue/transport/message.cpp:286-333 | an error written out parses back as an error with the same id, code, message and data; one whose id is undefined is written with neither id nor method and is rejected |
| TransportMessage.Message.constructor | molequeue/transport/message.cpp:33-39 | a message made from a connection and endpoint is invalid, with every member at its default |
| TransportMessage.Message.OfType | molequeue/transport/message.cpp:41-74 | a message made for a type has that type's default members |
| TransportMessage.Message.FromRaw | molequeue/transport/message.cpp:76-83 | a message made from raw JSON is a raw message holding it |
| TransportMessage.Message.Copy | molequeue/transport/message.cpp:85-98 | a copy has every member, connection and endpoint of the original |
| TransportMessage.Message.Method | molequeue/transport/message.cpp:122-128 | the method is readable for requests, notifications, responses and errors, and empty otherwise |
| TransportMessage.Message.Params | molequeue/transport/message.cpp:138-144 | the params are readable for requests and notifications, and null otherwise |
| TransportMessage.Message.Result | molequeue/transport/message.cpp:170-176 | the result is readable for responses only, and null otherwise |
| TransportMessage.Message.ErrorCode | molequeue/transport/message.cpp:194-200 | the error code is readable for errors only, and 0 otherwise |
| TransportMessage.Message.ErrorMessage | molequeue/transport/message.cpp:210-216 | the error message is readable for errors only, and empty otherwise |
| TransportMessage.Message.ErrorData | molequeue/transport/message.cpp:226-232 | the error data is readable for errors only, and null otherwise |
| TransportMessage.Message.Id | molequeue/transport/message.cpp:250-256 | the id (possibly undefined) is readable for requests, responses and errors, and null otherwise |
| TransportMessage.Message.SetMethod | molequeue/transport/message.cpp:130-136 | the method changes only for the types that have one; nothing else changes |
| TransportMessage.Message.SetParams | molequeue/transport/message.cpp:154-168 | params change only for requests and notifications; nothing else changes |
| TransportMessage.Message.SetResult | molequeue/transport/message.cpp:186-192 | the result changes only for a response; nothing else changes |
| TransportMessage.Message.SetErrorCode | molequeue/transport/message.cpp:202-208 | the error code changes only for an error; nothing else changes |
| TransportMessage.Message.SetErrorMessage | molequeue/transport/message.cpp:218-224 | the error message changes only for an error; nothing else changes |
| TransportMessage.Message.SetErrorData | molequeue/transport/message.cpp:242-248 | the error data changes only for an error; nothing else changes |
| TransportMessage.Message.SetId | molequeue/transport/message.cpp:258-264 | the id changes only for requests, responses and errors; nothing else changes |
| TransportMessage.Message.Send | molequeue/transport/message.cpp:341-350 | an invalid message or one without an open connection is not sent and does not change; otherwise a request first takes a fresh, defined id, the packet is its JSON object, and the result is the connection's |
| TransportMessage.Message.GenerateResponse | molequeue/transport/message.cpp:352-361 | a request's response has its method, id, connection and endpoint; any other message gives an invalid one |
| TransportMessage.Message.GenerateErrorResponse | molequeue/transport/message.cpp:363-372 | the error response is ErrorResponseOf the message, on the same connection and endpoint |
| TransportMessage.Message.Parse | molequeue/transport/message.cpp:380-449 | the result, the new members and the error reply are those ParseFields gives, and the connection and endpoint are kept |
| TransportMessage.Message.InterpretResponse | molequeue/transport/message.cpp:517-524 | the message becomes a response with the looked-up method, the JSON's result and id, undefined when the JSON has none |
| TransportMessage.Message.InterpretErrorMember | molequeue/transport/message.cpp:526-590 | the message becomes InterpretError of its old members |
| TransportMessage.Message.InterpretNotification | molequeue/transport/message.cpp:505-515 | the message becomes a notification with the JSON's method and params and no id |
| TransportMessage.Message.InterpretRequest | molequeue/transport/message.cpp:464-503 | it succeeds exactly when RequestErrors is empty, making the message a request; otherwise the message is kept and the -32600 reply is returned |
| TransportMessage.Message.ReplyToInvalid | molequeue/transport/message.cpp:416-426 | the reply to a malformed message is InvalidRequestReply of it |
| JobDataModel.Wrap32 | molequeue/jobdata.cpp:87-88 | QVariant::toInt wraps any integer into the signed 32-bit range and keeps those already in it |
| JobDataModel.ToULongLong | molequeue/jobdata.cpp:99-102 | a ULongLong variant reads as its own value |
| JobDataModel.ToUInt | molequeue/jobdata.cpp:99-102 | toUInt is the 64-bit reading cut to its low 32 bits |
| JobDataModel.ToInt | molequeue/jobdata.cpp:87-88 | an Int variant reads as its value wrapped to 32 bits |
| JobDataModel.TextToInt | molequeue/jobdata.cpp:87-88 | QVariant::toInt on text always lies in the signed 32-bit range: text toLongLong refuses gives 0, and an accepted value is wrapped to 32 bits |
| JobDataModel.IntTextReadsBack | molequeue/jobdata.cpp:87-88 | a signed 64-bit number stored as its decimal text converts with toInt to what the number itself converts to |
| JobDataModel.PaddedIntReadsAlike | molequeue/jobdata.cpp:87-88 | white space around a number stored as text does not change what toInt reads |
| JobDataModel.TextToBool | molequeue/jobdata.cpp:93-98 | QVariant::toBool on text is false exactly for "", "0" and "false" in any letter case |
| JobDataModel.BoolTextReadsBack | molequeue/jobdata.cpp:93-98 | a flag stored as the text "true" or "false" reads back as the same flag |
| JobDataModel.FromHashAsWritten | molequeue/jobdata.cpp:81-103 | as written, setFromHash reads both ids through toUInt, so each is below 2^32 |
| JobDataModel.HashKeySet | molequeue/jobdata.cpp:58-79 | hash() has exactly the fifteen member keys |
| JobDataModel.FieldsRoundTrip | molequeue/jobdata.cpp:58-103 | every member but the two ids comes back from setFromHash(hash()) unchanged |
| JobDataModel.HashRoundTrip | molequeue/jobdata.cpp:58-103 | corrected (ids read at 64 bits), setFromHash(hash()) gives back every member |
| JobDataModel.AsWrittenRoundTrip | molequeue/jobdata.cpp:99-102 | as written, the round trip holds exactly when both ids are below 2^32 |
| JobDataModel.LowBitsKeepSmall | molequeue/jobdata.cpp:99-102 | cutting to 32 bits keeps a number exactly when it is below 2^32 |
| JobDataModel.AsWrittenLosesInvalidId | molequeue/jobdata.cpp:32-100 | as written, any job whose id is InvalidId (a new job, for one) comes back with id 0xFFFFFFFF, which is a valid id |
| JobDataModel.EmptyHashDefaults | molequeue/jobdata.cpp:81-103 | reading an empty hash gives the defaults setFromHash names: output retrieved and popups on, files kept, shown in the GUI, state None, both ids 0, empty texts |
| JobDataModel.JobData.constructor | molequeue/jobdata.cpp:23-35 | a new JobData holds the constructor's defaults, both ids InvalidId |
| JobDataModel.JobData.Copy | molequeue/jobdata.cpp:37-56 | the copy holds every member of the original |
| JobDataModel.JobData.ToHash | molequeue/jobdata.cpp:58-79 | the hash has exactly the fifteen keys and reads back as the object's members |
| JobDataModel.JobData.SetFromHash | molequeue/jobdata.cpp:81-103 | the members become FromHash of the hash (ids read at 64 bits) |
| JobDataModel.JobData.Assign | molequeue/jobdata.cpp:81-103 | the members become the given ones |
| JobDataModel.JobData.AssignFlags | molequeue/jobdata.cpp:93-98 | the five flags take the given values and every other member is kept |
| JobDataModel.JobData.AssignStateAndIds | molequeue/jobdata.cpp:87-102 | the state and both ids take the given values and every other member is kept |
| JobIndex.RekeyAsWritten | molequeue/app/jobmanager.cpp:192-204 | as written, after a job's id changes the new id leads to the job (an old key equal to the sentinel is never removed) |
| JobIndex.Rekey | molequeue/app/jobmanager.cpp:192-204 | corrected, after a job's id changes the new id leads to the job |
| JobIndex.RekeyIndexed | molequeue/app/jobmanager.cpp:192-204 | corrected re-keying keeps the map exact: every key leads to a held job whose id is that key |
| JobIndex.UpdateIndexed | molequeue/app/jobmanager.cpp:206-240 | changing a job without changing its id keeps the map exact |
| JobIndex.InsertIndexed | molequeue/app/jobmanager.cpp:242-249 | inserting a new job, keyed or not, keeps the map exact |
| JobIndex.RemoveIndexed | molequeue/app/jobmanager.cpp:109-131 | removing a job together with its key keeps the map exact |
| JobIndex.AsWrittenLeavesStaleEntry | molequeue/app/jobmanager.cpp:197-201 | as written, a job keyed under the sentinel and then given a new id stays under the sentinel as well, a stale entry |
| JobIndex.RekeyDropsStaleEntry | molequeue/jobmanager.cpp:145-163 | corrected, re-keying a job twice leaves only its latest id in the map (the older revision's sentinel 0 included) |
| AppJobManager.JobsInState | molequeue/app/jobmanager.cpp:164-174 | the result holds exactly the listed jobs in the given state |
| AppJobManager.JobManager.constructor | molequeue/app/jobmanager.cpp:83-93 | a new registry owns no jobs and maps no ids |
| AppJobManager.JobManager.Lookup | molequeue/app/jobmanager.cpp:159-162 | an id finds a job exactly when it is mapped, and the job found is owned and holds that id |
| AppJobManager.JobManager.JobAt | molequeue/app/jobmanager.cpp:176-181 | an index finds a job exactly when it is within the list, and that job is owned |
| AppJobManager.JobManager.IndexOf | molequeue/app/jobmanager.cpp:183-190 | the index is -1 exactly for a null or foreign job, and otherwise the job's position |
| AppJobManager.JobManager.PositionRoundTrip | molequeue/app/jobmanager.cpp:176-190 | jobAt and indexOf are inverse: an index in range comes back from indexOf(jobAt(i)), and every owned job from jobAt(indexOf(job)) |
| AppJobManager.JobManager.NewJob | molequeue/app/jobmanager.cpp:83-93 | a default job is appended, the about-to-be-added and added signals are emitted, and it is mapped exactly when it was given an id other than InvalidId |
| AppJobManager.JobManager.NewJobFromState | molequeue/app/jobmanager.cpp:95-107 | a job with the given fields, its id reset before the hook, is appended and mapped as newJob() does |
| AppJobManager.JobManager.Append | molequeue/app/jobmanager.cpp:242-249 | the job is appended and stored, mapped exactly when its id is not InvalidId, and jobAdded follows jobAboutToBeAdded |
| AppJobManager.JobManager.RemoveJob | molequeue/app/jobmanager.cpp:109-131 | a null or foreign job changes nothing; an owned job leaves the list (no other job does), the store and the map under its id, with jobAboutToBeRemoved then jobRemoved |
| AppJobManager.JobManager.RemoveJobById | molequeue/app/jobmanager.cpp:133-139 | afterwards the id is unmapped; an unknown id changes nothing, a known one removes its job |
| AppJobManager.JobManager.RemoveJobs | molequeue/app/jobmanager.cpp:153-157 | afterwards none of the ids is mapped, and the mapped ids are the old ones minus those given |
| AppJobManager.JobManager.JobsWithJobState | molequeue/app/jobmanager.cpp:164-174 | the loop returns exactly the owned jobs in the given state, in list order |
| AppJobManager.JobManager.SetMoleQueueId | molequeue/app/jobmanager.cpp:192-204 | a foreign job changes nothing; an owned job takes the new id, the map is re-keyed (the old key removed), and the new id finds the job |
| AppJobManager.JobManager.UpdateJob | molequeue/app/jobmanager.cpp:206-240 | the job's fields are replaced, its id unchanged, and the map stays exact |
| AppJobManager.JobManager.SetJobState | molequeue/app/jobmanager.cpp:206-226 | an unknown id or an unchanged state is a no-op; otherwise only that job's state changes and jobStateChanged with both states is emitted |
| AppJobManager.JobManager.SetJobQueueId | molequeue/app/jobmanager.cpp:228-240 | an unknown id or an unchanged queue id is a no-op; otherwise only that job's queue id changes and jobUpdated is emitted |
| LegacyJobManager.MapUnlessZero | molequeue/jobmanager.cpp:198-201 | an id of 0 is never mapped; any other id is mapped to the job |
| LegacyJobManager.JobsInState | molequeue/jobmanager.cpp:133-143 | the result holds exactly the listed jobs in the given state |
| LegacyJobManager.JobManager.constructor | molequeue/jobmanager.cpp:64-72 | a new registry owns no jobs and maps no ids |
| LegacyJobManager.JobManager.LookupClientId | molequeue/jobmanager.cpp:123-126 | a client id finds a job exactly when it is mapped, and that job is owned and holds the id |
| LegacyJobManager.JobManager.LookupMoleQueueId | molequeue/jobmanager.cpp:128-131 | a MoleQueue id finds a job exactly when it is mapped, and that job is owned and holds the id |
| LegacyJobManager.JobManager.NewJob | molequeue/jobmanager.cpp:64-83 | the job is appended and stored, each non-zero id is mapped to it, and jobAboutToBeAdded then jobAdded are emitted |
| LegacyJobManager.JobManager.InsertJob | molequeue/jobmanager.cpp:195-204 | the job is appended and stored, each non-zero id is mapped to it, and jobAdded is emitted |
| LegacyJobManager.JobManager.RemoveJob | molequeue/jobmanager.cpp:85-101 | a null or foreign job changes nothing; an owned job leaves the list (no other job does), the store and both maps under its ids, with jobAboutToBeRemoved then jobRemoved |
| LegacyJobManager.JobManager.RemoveJobById | molequeue/jobmanager.cpp:103-109 | afterwards the id is unmapped; an unknown id changes nothing else, a known one removes its job |
| LegacyJobManager.JobManager.RemoveJobs | molequeue/jobmanager.cpp:117-121 | the mapped MoleQueue ids are the old ones minus those given |
| LegacyJobManager.JobManager.JobsWithJobState | molequeue/jobmanager.cpp:133-143 | the loop returns exactly the owned jobs in the given state, in list order |
| LegacyJobManager.JobManager.SetJobIds | molequeue/jobmanager.cpp:145-163 | a foreign job changes nothing; an owned job takes both ids, both maps are re-keyed, and each new id finds the job |
| LegacyJobManager.JobManager.UpdateJobState | molequeue/jobmanager.cpp:165-179 | an unknown id or an unchanged state is a no-op; otherwise only that job's state changes and jobStateChanged is emitted with both states |
| LegacyJobManager.JobManager.UpdateQueueId | molequeue/jobmanager.cpp:181-193 | an unknown id or an unchanged queue id is a no-op; otherwise only that job's queue id changes and queueIdChanged is emitted |
| PrototypeJob.StatusString | molequeue/job.cpp:85-103 | "Undefined" is returned exactly for the undefined status and any out-of-range value |
| PrototypeJob.StatusStringsDistinct | molequeue/job.cpp:85-103 | two different in-range statuses have different display strings |
| PrototypeJob.Lookup | molequeue/job.cpp:105-111 | a stored keyword yields its value, any other keyword the empty string |
| PrototypeJob.LookupAfterSet | molequeue/job.cpp:105-116 | after setReplacement the keyword yields the new value and every other keyword is unaffected |
| PrototypeJob.ExpandNoKeywords | molequeue/job.cpp:127-139 | a template that contains no delimited keyword is returned unchanged |
| PrototypeJob.ExpandSelfKeyword | molequeue/job.cpp:127-139 | a keyword whose value is its own delimited pattern leaves the template unchanged |
| PrototypeJob.LinesSnoc | molequeue/job.cpp:118-125 | the intended list grows by one "Keyword: k = v" line per keyword |
| PrototypeJob.LinesListEveryKey | molequeue/job.cpp:118-125 | the intended list contains a line for every keyword |
| PrototypeJob.LastLineLosesKeys | molequeue/job.cpp:120-123 | with two or more keywords the list as written is strictly shorter than, so differs from, the intended list |
| PrototypeJob.FileBaseName | molequeue/job.cpp:71-83 | the replacement stored for a file path is its base name without directory or extension |
| PrototypeJob.Job.constructor | molequeue/job.cpp:24-28 | a new job takes the program's delimiter and run template and has no name, title, files or replacements |
| PrototypeJob.Job.SetName | molequeue/job.cpp:35-38 | only the name changes |
| PrototypeJob.Job.SetTitle | molequeue/job.cpp:45-48 | only the title changes |
| PrototypeJob.Job.SetReplacement | molequeue/job.cpp:113-116 | only the replacement for that keyword changes |
| PrototypeJob.Job.SetWorkingDirectory | molequeue/job.cpp:65-69 | the directory is stored and also becomes the "workingDirectory" replacement; nothing else changes |
| PrototypeJob.Job.SetInputFile | molequeue/job.cpp:71-76 | the file is stored and its base name becomes the "input" replacement; nothing else changes |
| PrototypeJob.Job.SetOutputFile | molequeue/job.cpp:78-83 | the file is stored and its base name becomes the "output" replacement; nothing else changes |
| PrototypeJob.Job.ExpandedRunTemplate | molequeue/job.cpp:127-139 | the loop replaces each delimited keyword, in key order, with its value |
| PrototypeJob.Job.ReplacementListAsWritten | molequeue/job.cpp:118-125 | the loop as written keeps only the last keyword's line |
| PrototypeJob.Job.ReplacementList | molequeue/job.cpp:118-125 | the corrected loop returns one line per keyword in key order |
| Programs.Command | molequeue/app/program.cpp:219-220 | the command is the executable alone when there are no arguments, else executable, space, arguments |
| Programs.FormattedExecutionString | molequeue/app/program.cpp:208-250 | the custom syntax gives the empty string, every built-in syntax starts with the command, an unrecognised value gives the internal-error message |
| Programs.ExecutionStringShapes | molequeue/app/program.cpp:222-243 | every non-plain syntax ends in a newline; only the base-name syntax passes $$inputFileBaseName$$, and exactly the two redirect syntaxes write to the output file |
| Programs.TailShapes | molequeue/app/program.cpp:224-239 | the part after the command has the shape of its syntax, as above |
| Programs.NoRedirection | molequeue/app/program.cpp:224-229 | a tail with no '>' cannot redirect to the output file |
| Programs.SettingsToJson | molequeue/app/program.cpp:143-155 | the settings object carries exactly the five program keys |
| Programs.SettingsFromJson | molequeue/app/program.cpp:157-182 | settings are read exactly when the four strings and the numeric launch syntax are present, the syntax rounded by adding 0.5 and truncating |
| Programs.SettingsRoundTrip | molequeue/app/program.cpp:143-182 | writing then reading settings gives them back exactly when the launch syntax is not negative |
| Programs.Program.constructor | molequeue/app/program.cpp:32-44 | a new program is named "Program", runs "program" with no arguments, writes $$inputFileBaseName$$.out and uses the redirect syntax |
| Programs.Program.SetName | molequeue/app/program.h:127-134 | the name changes; nameChanged(new, old) is emitted only when it differs; the settings are untouched |
| Programs.Program.SetLaunchSyntax | molequeue/app/program.h:148-153 | a value at or past the syntax count is ignored; any other is stored and nothing else changes |
| Programs.Program.ReadJsonSettings | molequeue/app/program.cpp:157-182 | succeeds exactly when the settings object is valid; then the program takes its settings, otherwise they are unchanged |
| Programs.Program.LaunchTemplate | molequeue/app/program.cpp:184-206 | the custom syntax returns the custom template; otherwise the queue's template (or the bare keyword) has $$programExecution$$ replaced by the execution string |
| Programs.Program.LaunchTemplateDefaults | molequeue/app/program.cpp:184-206 | without a queue the template is the execution string itself; a queue template with neither keyword comes back unchanged |
| Queues.TypeName | molequeue/app/queuemanager.cpp:94-102 | each queue type has its own name, so a type name identifies the type |
| Queues.FailureStep | molequeue/app/queue.cpp:514-531 | a job is retried exactly while it has failed at most MaxFailures (3) times; a retry counts the failure, a refusal clears the job's counter; other jobs' counters are untouched |
| Queues.FailureStepBounded | molequeue/app/queue.cpp:514-531 | a failure keeps every counter between 1 and MaxFailures |
| Queues.FourthFailureRefused | molequeue/app/queue.cpp:514-531 | a fresh job is retried after its first three failures and refused at the fourth, which leaves the counters as they were before |
| Queues.RunEnd | molequeue/app/queue.cpp:384-385 | the end of the run of keyword characters starting at a position |
| Queues.FindKeyword | molequeue/app/queue.cpp:384-390 | finds the first position at which an unreplaced $$keyword$$ begins, or reports that none remains |
| Queues.FindKeywordIffKeyword | molequeue/app/queue.cpp:384-390 | the search fails exactly when the script holds no keyword |
| Queues.KeywordEnd | molequeue/app/queue.cpp:384-389 | a keyword found spans at least five characters and ends inside the script |
| Queues.StripKeywords | molequeue/app/queue.cpp:383-390 | the removal loop leaves no keyword and never lengthens the script |
| Queues.StripKeepsClean | molequeue/app/queue.cpp:383-390 | a script without keywords is left unchanged |
| Queues.RunEndNewline | molequeue/app/queue.cpp:384-395 | a trailing newline does not extend a keyword run |
| Queues.NewlineKeepsClean | molequeue/app/queue.cpp:383-395 | appending the final newline does not create a keyword |
| Queues.WithNewline | molequeue/app/queue.cpp:392-395 | a non-empty script ends in a newline when one is asked for, and only a newline is ever added |
| Queues.JobIdMapRoundTrip | molequeue/app/queue.cpp:209-271 | reading a written job id table gives the same table when each queue id survives the decimal round trip; the MoleQueue ids, written as QJsonValue doubles or null, always come back |
| Queues.WrittenRecords | molequeue/app/queue.cpp:209-214 | every written member records the job it was written for |
| Queues.ParsedRecordedTable | molequeue/app/queue.cpp:256-271 | reading an object that records a table (each MoleQueue id as its QJsonValue double or null), and names all of it, gives that table |
| Queues.WrittenMember | molequeue/app/queue.cpp:209-214 | a written member's name reads back as a queue id of the table, and its value is that job's MoleQueue id |
| Queues.WrittenKeysReadBack | molequeue/app/queue.cpp:209-270 | the written member names read back as exactly the table's queue ids |
| Queues.NamesCoverIds | molequeue/app/queue.cpp:266-270 | names that all read as ids of a set, and cover it, read back as that set |
| Queues.WrittenConfigValid | molequeue/app/queue.cpp:216-222 | the settings a program writes are a program configuration the queue accepts |
| Queues.Merged | molequeue/app/queue.cpp:311-322 | the programs after adding the read ones: the held programs stay, and only new names are added |
| Queues.MergedNone | molequeue/app/queue.cpp:311-322 | adding no programs changes nothing |
| Queues.MergedStep | molequeue/app/queue.cpp:312-321 | adding one more read program adds it only when its name is not yet held |
| Queues.StateFile | molequeue/app/queue.cpp:125-137 | without a configuration directory there is no state file; otherwise it lies in that directory and ends with the queue name and ".mqq" |
| Queues.StateFileInjective | molequeue/app/queue.cpp:125-137 | two queues with different names have different state files |
| Queues.Queue.constructor | molequeue/app/queue.cpp:37-52 | a new queue has its name and type, no programs, no jobs and no failures |
| Queues.Queue.AddProgram | molequeue/app/queue.cpp:332-352 | a program whose name is held is refused unless replace is set; otherwise it is filed under its name and programAdded is emitted |
| Queues.Queue.RemoveProgram | molequeue/app/queue.cpp:359-368 | succeeds exactly when the name is held; the program is dropped and programRemoved emitted |
| Queues.Queue.RemoveProgramObject | molequeue/app/queue.cpp:354-357 | removes the program filed under that program's name |
| Queues.Queue.ProgramNameChanged | molequeue/app/queue.cpp:539-552 | when the program under the old name now carries the new name it is re-filed under the new name and programRenamed emitted; otherwise nothing changes |
| Queues.Queue.RenameProgram | molequeue/app/program.h:127-134 | renaming a held program, together with the queue's slot, keeps every program filed under its own name |
| Queues.Queue.AddJobFailure | molequeue/app/queue.cpp:514-531 | the counters and the answer are one failure step, and nothing else changes |
| Queues.Queue.JobAboutToBeRemoved | molequeue/app/queue.cpp:533-537 | the job's failure counter and its queue id entry are dropped |
| Queues.Queue.ClearJobFailures | molequeue/queues/remotessh.cpp:301 | the job's failure counter is dropped and nothing else changes |
| Queues.Queue.RecordQueueId | molequeue/queues/remotessh.cpp:303 | the queue id is mapped to the MoleQueue id and nothing else changes |
| Queues.Queue.ForgetQueueId | molequeue/queues/remotessh.cpp:398 | the queue id is unmapped and nothing else changes |
| Queues.Queue.ReplaceKeywords | molequeue/app/queue.cpp:370-396 | a valid job fills $$outputFileName$$ from its program and then its own keywords; every leftover keyword is removed; a newline is added on request; the script ends keyword-free |
| Queues.Queue.WriteJsonSettings | molequeue/app/queue.cpp:204-234 | the settings object has jobIdMap exactly when not exporting and programs exactly when programs are included |
| Queues.Queue.WrittenMembers | molequeue/app/queue.cpp:204-234 | the written type, templates, job table and program settings are the queue's own |
| Queues.Queue.WrittenSettingsValid | molequeue/app/queue.cpp:204-325 | whatever a queue writes, a queue of the same type accepts |
| Queues.Queue.ReadJsonSettings | molequeue/app/queue.cpp:236-325 | succeeds exactly when the settings are valid for this queue's type; a failure changes nothing; a success takes the templates, the job table unless importing, and the programs whose names are not yet held |
| Queues.Queue.ParseJobIdMap | molequeue/app/queue.cpp:266-270 | the loop builds the table read from a jobIdMap object |
| Queues.Queue.CreatePrograms | molequeue/app/queue.cpp:281-302 | one fresh program per member, named after it and configured from it |
| Queues.Queue.NewProgram | molequeue/app/queue.cpp:291-300 | a fresh program with the given name and the configuration's settings |
| Queues.Queue.AddCreatedPrograms | molequeue/app/queue.cpp:311-322 | the read programs are added under names not yet held; held programs stay |
| QueueManagers.AvailableQueues | molequeue/app/queuemanager.cpp:94-102 | lists each queue type's name once, ezHPC UIT only in a build with UIT support |
| QueueManagers.KindOf | molequeue/app/queuemanager.cpp:119-134 | a type name yields the queue type that carries that name |
| QueueManagers.KindOfValid | molequeue/app/queuemanager.cpp:104-134 | a queue can be created from a type name exactly when queueTypeIsValid accepts it |
| QueueManagers.QueueConfigDirectory | molequeue/app/queuemanager.cpp:207-224 | empty when the working directory base is empty; otherwise that base followed by /config/queues |
| QueueManagers.Removed | molequeue/app/queuemanager.cpp:163-165 | removing a state file drops that file and keeps every other one |
| QueueManagers.RenameAsWrittenKeepsOldFile | molequeue/app/queuemanager.cpp:188-205 | as written, a rename removes the file under the new name, so the old queue's state file is left behind |
| QueueManagers.RenameAsWrittenExample | molequeue/app/queuemanager.cpp:188-205 | renaming queue A to B leaves A.mqq beside B.mqq |
| QueueManagers.RenameFiles | molequeue/app/queuemanager.cpp:188-205 | the intended rename writes the new state file, removes the old one and keeps every other file |
| QueueManagers.StateFilesDiffer | molequeue/app/queuemanager.cpp:188-205 | the old and the new state file differ whenever the names do |
| QueueManagers.QueueManager.constructor | molequeue/app/queuemanager.cpp:39-45 | a new manager holds no queues |
| QueueManagers.QueueManager.AddQueue | molequeue/app/queuemanager.cpp:109-145 | succeeds exactly when the name is free or replace is set and the type is valid; a replaced queue stays dropped even when the type is unknown; a new queue is filed under its name and queueAdded emitted |
| QueueManagers.QueueManager.Forget | molequeue/app/queuemanager.cpp:112-113 | the queue under that name is dropped and nothing else changes |
| QueueManagers.QueueManager.Install | molequeue/app/queuemanager.cpp:119-144 | a fresh queue of that type, with its type's default templates and no programs or jobs, is filed under the name and announced |
| QueueManagers.QueueManager.RemoveQueue | molequeue/app/queuemanager.cpp:152-168 | succeeds exactly when the name is held; the queue is dropped, queueRemoved emitted and its state file removed |
| QueueManagers.QueueManager.RemoveQueueObject | molequeue/app/queuemanager.cpp:147-150 | removes the queue filed under that queue's name |
| QueueManagers.QueueManager.QueueNameChanged | molequeue/app/queuemanager.cpp:188-205 | a queue renamed to the new name is re-filed under it, its state file moved and queueRenamed emitted; otherwise nothing changes |
| QueueManagers.QueueManager.RenameQueue | molequeue/app/queuemanager.cpp:188-205 | renaming a held queue, together with the manager's slot, keeps every queue filed under its own name |
| QueueManagers.QueueManager.ToQueueList | molequeue/app/queuemanager.cpp:170-177 | the list maps each queue's name to its program names |
| LocalQueues.MaxNumberOfCores | molequeue/app/queues/local.cpp:269-275 | the configured core count when it is positive, else the ideal thread count |
| LocalQueues.CoresRoundTrip | molequeue/app/queues/local.cpp:80-127 | a core count written as a double reads back (rounded by +0.5 and truncated) exactly when it is not negative, and the usable core count survives either way |
| LocalQueues.SumValidCoresPrepend | molequeue/app/queues/local.cpp:302-307 | the cores in use are the sum over the valid jobs, one job at a time |
| LocalQueues.Schedule | molequeue/app/queues/local.cpp:312-329 | the FIFO scheduling loop consumes a prefix of the waiting jobs |
| LocalQueues.ScheduleStep | molequeue/app/queues/local.cpp:313-325 | one round: an unknown job is dropped, an affordable job is dropped and, if it starts, its cores are taken |
| LocalQueues.RunStep | molequeue/app/queues/local.cpp:313-325 | one loop iteration keeps the loop's outcome equal to the scheduling function's |
| LocalQueues.ScheduleInOrder | molequeue/app/queues/local.cpp:312-329 | the jobs started are exactly the valid jobs that started, among those consumed, in queue order |
| LocalQueues.ScheduleBudget | molequeue/app/queues/local.cpp:320-323 | the cores left are the cores available less those of the started jobs |
| LocalQueues.ScheduleFits | molequeue/app/queues/local.cpp:320-323 | every started job is known and fitted in the cores left when it was reached |
| LocalQueues.ScheduleStops | molequeue/app/queues/local.cpp:313-328 | the loop stops early only when no cores are left or the next job is known and needs more cores than are left |
| LocalQueues.IdsRoundTrip | molequeue/app/queues/local.cpp:83-120 | the jobs to resume, written as QJsonValue doubles, read back as written |
| LocalQueues.InvalidResumeIdRefused | molequeue/app/queues/local.cpp:83-120 | a job with the invalid id is written as null, so the written settings fail the isDouble check |
| LocalQueues.RemovedAt | molequeue/app/queues/local.cpp:157 | QList::removeAt drops exactly the element at that index |
| LocalQueues.RemovedFirstOccurrence | molequeue/app/queues/local.cpp:155-157 | removing the first occurrence of a waiting job removes one copy of it and nothing else |
| LocalQueues.LocalJsonKeepsGeneric | molequeue/app/queues/local.cpp:74-92 | the local settings add "cores" and "jobsToResume" and keep every generic member |
| LocalQueues.LocalJsonReadBack | molequeue/app/queues/local.cpp:74-131 | written local settings are accepted, the jobs to resume (QJsonValue doubles) read back, and the usable core count is preserved |
| LocalQueues.LocalQueue.constructor | molequeue/app/queues/local.cpp:53-68 | a new queue is named "Local", has the platform's launch template and script name, no jobs, and cores set to -1 |
| LocalQueues.LocalQueue.AddJobToQueue | molequeue/app/queues/local.cpp:278-285 | the job joins the end of the waiting queue and is set to QueuedLocal |
| LocalQueues.LocalQueue.KillJob | molequeue/app/queues/local.cpp:150-173 | an invalid job changes nothing; a waiting job leaves the queue; a running job stops and its queue id is forgotten; a valid job always ends Canceled |
| LocalQueues.LocalQueue.CancelJob | molequeue/app/queues/local.cpp:155-172 | the first waiting copy is removed, or else the job stops running; it reports whether the job was running |
| LocalQueues.LocalQueue.RunningIds | molequeue/app/queues/local.cpp:303 | lists exactly the running jobs |
| LocalQueues.LocalQueue.CheckJobQueue | molequeue/app/queues/local.cpp:297-330 | with nothing waiting nothing changes; otherwise the jobs the schedule consumes leave the queue and those it starts are running |
| LocalQueues.LocalQueue.CoresInUse | molequeue/app/queues/local.cpp:302-307 | the loop sums the cores of the valid running jobs |
| LocalQueues.LocalQueue.RunQueue | molequeue/app/queues/local.cpp:312-329 | the loop leaves the unconsumed suffix waiting and adds the started jobs to the running set |
| LocalQueues.LocalQueue.WrittenLocalSettings | molequeue/app/queues/local.cpp:74-131 | the written settings are accepted by both the local and the generic reader, and the jobs to resume are the running then the waiting jobs |
| LocalQueues.LocalQueue.ReadJsonSettings | molequeue/app/queues/local.cpp:94-131 | succeeds exactly when both the local and the generic checks pass; a failure changes nothing; a success takes the rounded core count and the jobs to resume |
| QueueScan.Run | molequeue/app/queues/oar.cpp:126-128 | a character-class run (\s, \S, \d, \w) covers the longest prefix of its class |
| QueueScan.RunOf | molequeue/app/queues/oar.cpp:126-128 | the run over a block of the class followed by a character outside it is exactly that block |
| QueueScan.Skip | molequeue/app/queues/oar.cpp:126-128 | skipping a run never lengthens the text |
| QueueScan.Word | molequeue/app/queues/oar.cpp:127 | a \w+ capture is a non-empty run of word characters |
| QueueScan.ToInt | molequeue/app/queues/oar.cpp:133 | QString::toInt on a digit capture succeeds exactly when the value fits in a signed 32-bit int, and then gives that value |
| QueueScan.IdOrZero | molequeue/app/queues/oar.cpp:133 | the queue id the parsers store: the value toInt gave, or 0 when it failed |
| QueueScan.LeadingId | molequeue/app/queues/oar.cpp:126 | ^\s*(\d+) captures a non-empty digit run |
| QueueScan.ToIntDecimal | molequeue/app/queues/oar.cpp:94-133 | the decimal form of an id that fits in an int reads back as that id |
| QueueScan.LeadingIdOf | molequeue/app/queues/oar.cpp:126 | an indented digit run followed by a non-digit is captured whole |
| QueueScan.FieldOf | molequeue/queues/slurm.cpp:92-94 | a space and a non-space field are skipped up to the next space |
| QueueScan.WordOf | molequeue/app/queues/oar.cpp:127 | a space and a word followed by a non-word character capture that word |
| QueueScan.ThreeFieldsChain | molequeue/queues/slurm.cpp:92-94 | three fields skipped one at a time are the three-field step |
| QueueScan.ThreeFieldsOf | molequeue/queues/slurm.cpp:92-94 | three space-separated fields are skipped up to what follows them |
| QueueScan.Listed | molequeue/app/queues/oar.cpp:90-95 | the request lists exactly the queue ids other than InvalidId |
| QueueScan.ListedAscending | molequeue/app/queues/oar.cpp:90-95 | ids taken from QMap::keys in ascending order stay ascending |
| QueueScan.Decimals | molequeue/app/queues/oar.cpp:94 | QString::number gives the decimal form of each id |
| QueueScan.DecimalsRoundTrip | molequeue/app/queues/oar.cpp:94 | each decimal form reads back as its id |
| QueueScan.RequestIdStrings | molequeue/app/queues/oar.cpp:90-95 | the loop yields the decimal forms of the listed ids, in order |
| QueueScan.ListedAppend | molequeue/app/queues/oar.cpp:92-95 | one more key adds its id unless it is InvalidId |
| QueueScan.RequestedIds | molequeue/app/queues/oar.cpp:90-95 | the ids requested are the table's queue ids other than InvalidId, ascending |
| Oar.FindMarker | molequeue/app/queues/oar.cpp:105-107 | finds the first place OAR_JOB_ID= followed by a digit occurs, or reports there is none |
| Oar.ParseQueueId | molequeue/app/queues/oar.cpp:101-114 | without the marker the answer is false and the id is untouched; a true answer needs the marker |
| Oar.ParseQueueIdOf | molequeue/app/queues/oar.cpp:101-114 | what oarsub prints reads back as its job id |
| Oar.NoMarkerNoId | molequeue/app/queues/oar.cpp:107-113 | output without OAR_JOB_ID= gives false and leaves the id as it was |
| Oar.LineFields | molequeue/app/queues/oar.cpp:126-128 | a matching line yields a non-empty digit id and a non-empty state code |
| Oar.StateOf | molequeue/app/queues/oar.cpp:154-180 | exactly the codes l, e, w, r, t and f are recognised |
| Oar.ParseQueueLine | molequeue/app/queues/oar.cpp:116-183 | the outputs start as InvalidId and Unknown; the answer is true exactly for a matching line with an int id and a known state, which is then Accepted, Error, Submitted, RunningRemote or Finished |
| Oar.LineRoundTrip | molequeue/app/queues/oar.cpp:116-183 | an oarstat line reads back as its job id and the state its letter stands for, in either case |
| Oar.ReadAs | molequeue/app/queues/oar.cpp:130-173 | a line whose fields are an int id and a state letter reads as that id and state |
| Oar.LineFieldsOf | molequeue/app/queues/oar.cpp:126-128 | the pattern's pieces chain into the line's fields |
| Oar.FieldsOf | molequeue/app/queues/oar.cpp:126-128 | an indented id, state letter and user are matched as those fields |
| Oar.ParseQueueLineOf | molequeue/app/queues/oar.cpp:130-181 | a matching line with an int id yields that id, and true with the state exactly when the code is known |
| Oar.NoIdNoJob | molequeue/app/queues/oar.cpp:119-130 | a line that does not start with a digit after spaces gives false, InvalidId and Unknown |
| Oar.GenerateQueueRequestCommand | molequeue/app/queues/oar.cpp:88-99 | the command is oarstat, a space, and the valid queue ids in ascending order joined by " -j " |
| Slurm.ParseQueueId | molequeue/queues/slurm.cpp:67-80 | the answer is true exactly when the whole output is "Submitted batch job " and an int's digits, and the id is then that number; output without the banner leaves the id untouched |
| Slurm.ParseQueueIdOf | molequeue/queues/slurm.cpp:67-80 | what sbatch prints, with nothing after the number, reads back as the number |
| Slurm.TrailingTextRefused | molequeue/queues/slurm.cpp:71 | anything after the number, a newline included, makes the answer false and leaves the id untouched |
| Slurm.LineFields | molequeue/queues/slurm.cpp:91-95 | a matching line yields a non-empty digit id and a non-empty state code |
| Slurm.StateOf | molequeue/queues/slurm.cpp:130-153 | ca, cd, cg, f, nf, pr, r, s and to mean running remotely; cf and pd queued remotely; nothing else is known |
| Slurm.ParseQueueLine | molequeue/queues/slurm.cpp:82-156 | the outputs start as InvalidId and Unknown; the answer is true exactly for a matching line with an int id and a known state |
| Slurm.ReadFieldsOf | molequeue/queues/slurm.cpp:99-153 | fields whose id converts yield that id, and true with the state exactly when the lower-cased code is known |
| Slurm.FieldsOf | molequeue/queues/slurm.cpp:91-95 | an indented id, partition, name, user and state are matched as the id and state fields |
| Slurm.LineFieldsChain | molequeue/queues/slurm.cpp:91-95 | the pattern's pieces chain into the line's fields |
| Slurm.LineRoundTrip | molequeue/queues/slurm.cpp:82-156 | an squeue line reads back as its job id and the state its code stands for |
| Slurm.NoIdNoJob | molequeue/queues/slurm.cpp:85-97 | a line that does not start with a digit after spaces gives false, InvalidId and Unknown |
| Slurm.GenerateQueueRequestCommand | molequeue/queues/slurm.cpp:54-65 | the command is squeue -j and the valid queue ids in ascending order joined by commas |
| Pbs.AllowedExitCodes | molequeue/app/queues/pbs.cpp:48-50 | 0 and 153 are accepted in both revisions, 35 only in the later one, and nothing else |
| Pbs.ParseQueueId | molequeue/app/queues/pbs.cpp:57-70 | the answer is true exactly when the output starts with an int's digits, and the id is then that number; output not starting with a digit leaves the id untouched |
| Pbs.ParseQueueIdOf | molequeue/queues/pbs.cpp:54-67 | what qsub prints (the number, then a non-digit) reads back as the number |
| Pbs.LineFields | molequeue/app/queues/pbs.cpp:79-83 | a matching line yields a non-empty digit id and a non-empty state code |
| Pbs.StateOf | molequeue/app/queues/pbs.cpp:94-114 | r, e and c mean running remotely; q, h, t, w and s queued remotely; nothing else is known |
| Pbs.ParseQueueLine | molequeue/app/queues/pbs.cpp:72-117 | the outputs are not reset: a line that does not match keeps them; the answer is true exactly for a matching line with an int id and a known state |
| Pbs.ReadFieldsOf | molequeue/queues/pbs.cpp:85-109 | fields whose id converts yield that id, and true with the state exactly when the lower-cased code is known, the prior state otherwise |
| Pbs.LineFieldsChain | molequeue/app/queues/pbs.cpp:79-83 | the pattern's pieces chain into the line's fields |
| Pbs.SuffixSkipped | molequeue/app/queues/pbs.cpp:79 | the \S* after the id skips a server suffix such as ".host" |
| Pbs.FieldsOf | molequeue/app/queues/pbs.cpp:79-83 | an indented id with its suffix, name, user, time and state are matched as the id and state fields |
| Pbs.LineRoundTrip | molequeue/app/queues/pbs.cpp:72-117 | a qstat line reads back as its job id and the state its code stands for |
| Pbs.NoIdKeepsOutputs | molequeue/queues/pbs.cpp:69-112 | a line that does not start with a digit after spaces gives false and leaves both outputs as they were |
| RemoteSsh.Tracked | molequeue/queues/remotessh.cpp:364 | a MoleQueue id other than InvalidId is found only for a tracked queue id, and is the one recorded for it |
| RemoteSsh.SortedIds | molequeue/queues/remotessh.cpp:358 | QMap::keys lists each tracked queue id once, ascending |
| RemoteSsh.Parsed | molequeue/queues/remotessh.cpp:361-363 | each line of the answer is read by the scheduler's own parseQueueLine |
| RemoteSsh.Hit | molequeue/queues/remotessh.cpp:363-366 | a line counts exactly when it parses and names a tracked job, and then gives its queue id, MoleQueue id and state |
| RemoteSsh.Seen | molequeue/queues/remotessh.cpp:361-383 | the queue ids still in the queue are tracked jobs |
| RemoteSsh.SeenGrows | molequeue/queues/remotessh.cpp:361-383 | reading more lines only adds to the ids seen |
| RemoteSsh.LineStep | molequeue/queues/remotessh.cpp:363-380 | one more line adds its job to those seen and, if the job is valid, its state to the updates |
| RemoteSsh.ScanLines | molequeue/queues/remotessh.cpp:358-383 | the loop aborts exactly when there is no server and a tracked job is listed; otherwise it leaves the tracked ids not seen, ascending, and the state updates in line order |
| RemoteSsh.Dropped | molequeue/queues/remotessh.cpp:386-387 | the queue ids finalised are exactly those listed that are tracked |
| RemoteSsh.FinalizeStep | molequeue/queues/remotessh.cpp:392-408 | finalising one more distinct queue id drops it if tracked and fetches its job when the server knows it |
| RemoteSsh.LeftJobsFinalized | molequeue/queues/remotessh.cpp:332-390 | with a server, a tracked job that left the queue is no longer tracked and a valid one is fetched; a job still listed stays tracked with the same id |
| RemoteSsh.FinalsHas | molequeue/queues/remotessh.cpp:386-407 | every listed, tracked, valid job is fetched |
| RemoteSsh.LineStateApplied | molequeue/queues/remotessh.cpp:361-380 | a line naming a tracked valid job marks it seen and sets its state |
| RemoteSsh.SpacedIds | molequeue/queues/remotessh.cpp:631-635 | the loop appends each id in decimal followed by a space |
| RemoteSsh.SpacedStep | molequeue/queues/remotessh.cpp:633-635 | one more id adds its decimal form and a space |
| RemoteSsh.DecimalIds | molequeue/queues/remotessh.cpp:634 | QString::number gives each id's decimal form |
| RemoteSsh.SpacedWords | molequeue/queues/remotessh.cpp:629-638 | splitting the id string on white space gives back the ids' decimal forms |
| RemoteSsh.SpacedJoin | molequeue/queues/remotessh.cpp:631-635 | the id string is the decimal forms joined by spaces with one trailing space |
| RemoteSsh.SplitTrailing | molequeue/queues/remotessh.cpp:634 | a trailing space adds no field when splitting |
| RemoteSsh.SplitFromTrailing | molequeue/queues/remotessh.cpp:634 | a trailing space adds no field, from any point of the split |
| RemoteSsh.UnreadIdRecorded | molequeue/queues/remotessh.cpp:275-303 | as written, an sbatch answer ending in a line break is refused by parseQueueId, yet the job is Submitted and the uninitialised id is recorded |
| RemoteSsh.Submitted | molequeue/queues/remotessh.cpp:265-304 | an unknown job changes nothing; a failed submission counts a failure, requeues the job while retries remain and marks it Error; a readable id marks it Submitted and records that id; an unreadable id marks it Error and records none |
| RemoteSsh.CleanRemoteDirectory | molequeue/queues/remotessh.cpp:504-532 | the command removes the cleaned base/id directory, and is refused exactly when that directory simplifies to "/" |
| RemoteSsh.CleanRemoteDirectoryRemovesJobDir | molequeue/queues/remotessh.cpp:504-517 | the guard never fires: the directory removed is always named after the job's id |
| RemoteSsh.DecimalIsPlainName | molequeue/queues/remotessh.cpp:506-507 | an id in decimal is a plain file name |
| RemoteSsh.FailedStartBlocksRequests | molequeue/queues/remotessh.cpp:306-330 | as written, a command that cannot be started leaves the checking flag set, and every later request then sends nothing |
| RemoteSsh.RequestStep | molequeue/queues/remotessh.cpp:306-330 | as intended, a request is sent exactly when none is running, a job is tracked and the command starts, and the flag stays set only while a request is running |
| RemoteSsh.RemoteQueue.constructor | molequeue/queues/remotessh.cpp:36-48 | a new remote queue is not checking, has nothing pending and accepts exit code 0, plus PBS's own codes for a PBS queue |
| RemoteSsh.RemoteQueue.GenerateQueueRequestCommand | molequeue/queues/remotessh.cpp:629-638 | each scheduler builds its own status request: SLURM `-j` with the valid ids joined by commas, OAR the valid ids joined by " -j " (the overrides in slurm.cpp:54-65 and app/queues/oar.cpp:88-99), and any other SSH queue the request command, a space, and every tracked queue id ascending, each followed by a space |
| RemoteSsh.RemoteQueue.RequestQueueUpdate | molequeue/queues/remotessh.cpp:306-330 | the flag and whether a command is sent follow the intended request step, and the command sent is the queue's own scheduler request (the SLURM or OAR override where the queue is one) |
| RemoteSsh.RemoteQueue.BeginFinalizeJob | molequeue/queues/remotessh.cpp:392-408 | an untracked queue id changes nothing; a tracked one is dropped, and its job is fetched when there is a server and the job is valid |
| RemoteSsh.RemoteQueue.FinalizeAll | molequeue/queues/remotessh.cpp:386-387 | the loop drops every listed tracked id and fetches their valid jobs, in order |
| RemoteSsh.RemoteQueue.HandleQueueUpdate | molequeue/queues/remotessh.cpp:332-390 | a refused exit code changes only the flag; otherwise states are set and jobs that left are finalised as the outcome function says; the flag always ends cleared |
| RemoteSsh.RemoteQueue.HandleSubmissionReply | molequeue/queues/remotessh.cpp:265-304 | the tables, retry list, state and queue id change as the intended submission handler says |
| TextOps.TrimStart | molequeue/app/queues/queueuit.cpp:843 | drops the leading white space only, keeping the rest as a suffix |
| TextOps.TrimEnd | molequeue/app/queues/queueuit.cpp:843 | drops the trailing white space only, keeping the rest as a prefix |
| TextOps.Trimmed | molequeue/app/queues/queueuit.cpp:843 | QString::trimmed leaves text that neither starts nor ends with white space |
| TextOps.TrimStartOf | molequeue/app/queues/queueuit.cpp:843 | leading white space before a non-space is removed exactly |
| TextOps.TrimEndOf | molequeue/app/queues/queueuit.cpp:843 | trailing white space after a non-space is removed exactly |
| QueueUit.TrimmedAround | molequeue/app/queues/queueuit.cpp:843 | a padded single character trims to that character |
| QueueUit.Lower | molequeue/app/queues/queueuit.cpp:852 | upper-case ASCII letters become lower case and every other character is kept |
| QueueUit.EventStateTable | molequeue/app/queues/queueuit.cpp:841-872 | a status that does not trim to one character is Error; r, e and c (either case) are RunningRemote; q, h, t, w and s are QueuedRemote; anything else is Unknown |
| QueueUit.EventStatePadded | molequeue/app/queues/queueuit.cpp:843-852 | white space around the status letter does not change the state |
| QueueUit.EventsOfEmpty | molequeue/app/queues/queueuit.cpp:496-505 | a queue id has no events exactly when no event names it |
| QueueUit.LastEventIsLatest | molequeue/app/queues/queueuit.cpp:504-536 | the last event grouped under a queue id is the last event in the answer that names it |
| QueueUit.GroupEvents | molequeue/app/queues/queueuit.cpp:493-505 | the loop groups the events by job id, each group in answer order, with a group for exactly the ids named |
| QueueUit.VisitStep | molequeue/app/queues/queueuit.cpp:507-543 | one tracked id: its job leaves the table and is fetched exactly when it is valid and has no event; the valid jobs are unchanged |
| QueueUit.VisitsKeepValid | molequeue/app/queues/queueuit.cpp:507-543 | the pass never adds or removes a known job |
| QueueUit.VisitsJobs | molequeue/app/queues/queueuit.cpp:507-543 | after the pass the table has lost exactly the valid jobs with no event |
| QueueUit.VisitsFinals | molequeue/app/queues/queueuit.cpp:507-543 | every valid tracked job with no event is fetched, and nothing fetched before is lost |
| QueueUit.LeftJobsFinalized | molequeue/app/queues/queueuit.cpp:488-546 | with a server, a valid tracked job no event names leaves the table and is fetched; one that an event names stays tracked |
| QueueUit.StateFromLastEvent | molequeue/app/queues/queueuit.cpp:528-541 | a valid job with events ends in the state its last event gives |
| QueueUit.VisitSetsState | molequeue/app/queues/queueuit.cpp:536-541 | visiting a valid job with events sets the state of its last event |
| QueueUit.VisitKeepsState | molequeue/app/queues/queueuit.cpp:507-543 | visiting one id leaves every other job's state alone |
| QueueUit.UpdatedFromLastEvent | molequeue/app/queues/queueuit.cpp:488-546 | with a server, a valid tracked job ends in the state of the last event that names it |
| QueueUit.VisitsSnoc | molequeue/app/queues/queueuit.cpp:507 | the pass over one more id is one more visit |
| QueueUit.VisitSkipping | molequeue/app/queues/queueuit.cpp:509-525 | an untracked id or a job the manager does not know changes nothing |
| QueueUit.VisitLeaving | molequeue/app/queues/queueuit.cpp:528-534 | a valid job with no event leaves the table and is fetched |
| QueueUit.VisitWithEvents | molequeue/app/queues/queueuit.cpp:536-541 | a valid job with events changes state, and is reported, only when the new state differs |
| QueueUit.VisitJob | molequeue/app/queues/queueuit.cpp:509-542 | the loop body does what one visit says |
| QueueUit.VisitAll | molequeue/app/queues/queueuit.cpp:507-543 | without a server the pass gives up and changes nothing; otherwise it visits every tracked id in order |
| QueueUit.ScanEvents | molequeue/app/queues/queueuit.cpp:488-546 | grouping then visiting gives the outcome the update function describes |
| QueueUit.ReadHostId | molequeue/app/queues/queueuit.cpp:118 | toLongLong gives a 64-bit value, 0 when the text does not read |
| QueueUit.HostIdRoundTrip | molequeue/app/queues/queueuit.cpp:94-118 | a 64-bit host id written as text reads back as itself |
| QueueUit.ReadAccount | molequeue/app/queues/queueuit.cpp:115-118 | the host id read is a 64-bit value |
| QueueUit.UitJsonKeepsGeneric | molequeue/app/queues/queueuit.cpp:85-97 | the UIT settings add the four account members and keep every generic member |
| QueueUit.UitJsonReadBack | molequeue/app/queues/queueuit.cpp:85-121 | written account settings are accepted and read back as the same account |
| QueueUit.UitQueue.constructor | molequeue/app/queues/queueuit.cpp:58-78 | a new queue is named "ezHPC UIT", runs job.uit, realm HPCMP.HPC.MIL, host id -1, and is not checking |
| QueueUit.UitQueue.RequestQueueUpdate | molequeue/app/queues/queueuit.cpp:414-439 | a request is made exactly when none is running and a job is tracked, for the account's host and user over one day, and the flag is then set |
| QueueUit.UitQueue.RequestQueueUpdateError | molequeue/app/queues/queueuit.cpp:441-458 | a failed request clears the flag |
| QueueUit.UitQueue.BeginFinalizeJob | molequeue/app/queues/queueuit.cpp:548-564 | an untracked id changes nothing; a tracked one is dropped, and its job fetched when there is a server and it is valid |
| QueueUit.UitQueue.HandleQueueUpdate | molequeue/app/queues/queueuit.cpp:488-546 | the table, the state changes and the fetched jobs follow the update function, and the flag ends cleared |
| QueueUit.UitQueue.WrittenUitSettings | molequeue/app/queues/queueuit.cpp:85-121 | the written settings are accepted and read back as the queue's account |
| QueueUit.UitQueue.ReadJsonSettings | molequeue/app/queues/queueuit.cpp:99-121 | succeeds exactly when the account members are strings and the generic checks pass; a failure changes nothing; a success takes the account |
| Logging.TypeSignal | molequeue/app/logger.cpp:190-203 | each entry is announced by the signal of its own type, and by newError exactly when it is an error |
| Logging.EntrySignalsOrder | molequeue/app/logger.cpp:183-251 | an entry is announced first by its type's signal and last by newLogEntry; firstNewErrorOccurred comes exactly for an error met at count 0 while errors are not silenced |
| Logging.NewestFacts | molequeue/app/logger.cpp:253-259 | trimming keeps the newest min(size, bound) entries in order, and the newest entry whenever the bound is positive |
| Logging.NewestIdempotent | molequeue/app/logger.cpp:253-259 | trimming twice to the same bound is trimming once |
| Logging.NegativeBoundErasesPastEnd | molequeue/app/logger.cpp:253-259 | as written, a negative maxEntries makes trimLog erase more entries than the log holds |
| Logging.NegativeBoundLoads | molequeue/app/logger.cpp:81-84 | a log file can set a negative maxEntries: -2.0 reads as -1 |
| Logging.AppEntries | molequeue/app/logger.cpp:86-92 | only the objects of the "entries" array are loaded |
| Logging.AppLogRoundTrip | molequeue/app/logger.cpp:79-117 | a log the application writes reads back with the same entries, and with the same maxEntries exactly when it is not negative |
| Logging.FilterKeepsAll | molequeue/app/logger.cpp:88-91 | an array of objects loses nothing when non-objects are skipped |
| Logging.AsInt | molequeue/logger.cpp:68-69 | asInt gives an integral value only when it fits an int |
| Logging.LegacyMaxEntries | molequeue/logger.cpp:68-69 | without an integral maxEntries the default of 1000 stays |
| Logging.LegacyEntries | molequeue/logger.cpp:71-77 | every element of the "entries" array is loaded |
| Logging.LegacyLogRoundTrip | molequeue/logger.cpp:63-77 | a log the older revision writes reads back with the same entries and maxEntries |
| Logging.LegacyIgnoresDoubles | molequeue/logger.cpp:68 | a maxEntries stored as a double is ignored and the default stays |
| Logging.Logger.constructor | molequeue/app/logger.cpp:34-94 | the logger starts with the bound and entries read from the file, no new errors, errors not silenced, and the entries untrimmed |
| Logging.Logger.TrimLog | molequeue/app/logger.cpp:253-259 | as intended, only the newest maxEntries entries stay (none for a negative bound) and nothing else changes |
| Logging.Logger.HandleNewLogEntry | molequeue/app/logger.cpp:183-205 | the stamped entry is appended and the log trimmed; its signals are emitted in order; the error count grows by one exactly for an error |
| Logging.Logger.HandleNewError | molequeue/app/logger.cpp:237-251 | the count grows by one; newError is emitted, then firstNewErrorOccurred when the count became 1 and errors are not silenced |
| Logging.Logger.ResetNewErrorCount | molequeue/app/logger.cpp:127-135 | the count becomes 0, and newErrorCountReset is emitted only when it was not 0 |
| Logging.Logger.SetMaxEntries | molequeue/app/logger.h:199-203 | the bound is stored and the log trimmed to it |
| Logging.Logger.SilenceNewErrors | molequeue/app/logger.h:213-216 | only the silencing flag changes |
| Logging.Logger.Clear | molequeue/app/logger.h:206 | the log is emptied and nothing else changes |
| JobTableFilter.Body | molequeue/app/jobtableproxymodel.cpp:213-216 | a term that starts with '-' is that dash followed by the text searched for; any other term is searched for whole |
| JobTableFilter.AcceptsByTerms | molequeue/app/jobtableproxymodel.cpp:154-240 | a row is shown exactly when it is valid, passes the hidden-job and state check boxes, and every whitespace-separated term of the filter string passes |
| JobTableFilter.StateFollowsOneBox | molequeue/app/jobtableproxymodel.cpp:167-202 | whether a job in a given state is shown depends only on the one check box that governs that state (New for Unknown/None/Accepted, Queued for both queued states, Running for both running states, and so on) |
| JobTableFilter.BlankFilterShowsAll | molequeue/app/jobtableproxymodel.cpp:204-237 | a filter string made only of white space imposes no term condition: only the validity, hidden and state checks remain |
| JobTableFilter.SplitBlank | molequeue/app/jobtableproxymodel.cpp:205-206 | splitting white space with empty parts skipped yields no terms beyond the pending one |
| JobTableFilter.SplitAtSpace | molequeue/app/jobtableproxymodel.cpp:205-206 | a white-space character separates the terms before it from the terms after it |
| JobTableFilter.JoinedTerms | molequeue/app/jobtableproxymodel.cpp:205-206 | the terms of two filter strings joined by a space are the terms of the first followed by those of the second |
| JobTableFilter.JoinedFilterIsConjunction | molequeue/app/jobtableproxymodel.cpp:207-234 | joining two filter strings with a space shows exactly the rows that both filters show |
| JobTableFilter.ConjunctionOf | molequeue/app/jobtableproxymodel.cpp:207-234 | a filter whose terms are the terms of two others, with the same check boxes, accepts a row exactly when both of them do |
| JobTableFilter.AllPassConcat | molequeue/app/jobtableproxymodel.cpp:207-234 | every term of a concatenated term list passes exactly when every term of each part passes |
| JobTableFilter.NegationComplements | molequeue/app/jobtableproxymodel.cpp:213-232 | prefixing a term with '-' shows exactly the rows the plain term hides |
| JobTableFilter.LoneDash | molequeue/app/jobtableproxymodel.cpp:213-232 | a lone "-" negates the empty text, which every text column contains: it passes exactly the rows with no text column |
| JobTableFilter.LowerTwice | molequeue/app/jobtableproxymodel.cpp:222 | lower-casing (the case-insensitive comparison) is idempotent |
| JobTableFilter.CaseBlindTerm | molequeue/app/jobtableproxymodel.cpp:218-227 | a term and its lower-cased form pass exactly the same rows, because matching ignores case |
| JobTableFilter.Loaded | molequeue/app/jobtableproxymodel.cpp:38-56 | the filter read from the settings store shows hidden jobs and all states by default and has an empty filter string when nothing is stored |
| JobTableFilter.SaveLoadRoundTrip | molequeue/app/jobtableproxymodel.cpp:242-263 | whatever the store held before, saving a filter and reading the settings back gives the same filter |
| JobTableFilter.LoadedOver | molequeue/app/jobtableproxymodel.cpp:242-263 | any store that holds the saved value of every key reads back as that filter |
| JobTableFilter.FreshStoreShowsAll | molequeue/app/jobtableproxymodel.cpp:42-52 | with an empty settings store every valid row is shown and no invalid row is |
| JobTableFilter.ProxyModel.Load | molequeue/app/jobtableproxymodel.cpp:26-57 | a persistent model starts with the filter read from the stored settings, keeps the store as it was and has not invalidated anything |
| JobTableFilter.ProxyModel.constructor | molequeue/jobtableproxymodel.cpp:25-36 | an in-memory model starts with the given filter and an empty, unused store |
| JobTableFilter.ProxyModel.SaveState | molequeue/app/jobtableproxymodel.cpp:242-263 | saving writes every setting of the current filter over the store, after which the store reads back as the current filter; the filter is unchanged |
| JobTableFilter.ProxyModel.Changed | molequeue/app/jobtableproxymodel.cpp:69-71 | a change invalidates the filter once and, in the persistent model, saves the current filter |
| JobTableFilter.ProxyModel.SetFilterString | molequeue/app/jobtableproxymodel.cpp:64-72 | sets the filter string and nothing else; an unchanged value neither invalidates nor saves, a new value invalidates once and saves in the persistent model |
| JobTableFilter.ProxyModel.SetShowHiddenJobs | molequeue/app/jobtableproxymodel.cpp:144-152 | sets the hidden-jobs box and nothing else; only a new value invalidates and saves |
| JobTableFilter.ProxyModel.SetShowStatusNew | molequeue/app/jobtableproxymodel.cpp:74-82 | sets the New box and nothing else; only a new value invalidates and saves |
| JobTableFilter.ProxyModel.SetShowStatusSubmitted | molequeue/app/jobtableproxymodel.cpp:84-92 | sets the Submitted box and nothing else; only a new value invalidates and saves |
| JobTableFilter.ProxyModel.SetShowStatusQueued | molequeue/app/jobtableproxymodel.cpp:94-102 | sets the Queued box and nothing else; only a new value invalidates and saves |
| JobTableFilter.ProxyModel.SetShowStatusRunning | molequeue/app/jobtableproxymodel.cpp:104-112 | sets the Running box and nothing else; only a new value invalidates and saves |
| JobTableFilter.ProxyModel.SetShowStatusFinished | molequeue/app/jobtableproxymodel.cpp:114-122 | sets the Finished box and nothing else; only a new value invalidates and saves |
| JobTableFilter.ProxyModel.SetShowStatusCanceled | molequeue/app/jobtableproxymodel.cpp:124-132 | sets the Canceled (Killed in the older revision) box and nothing else; only a new value invalidates and saves |
| JobTableFilter.ProxyModel.SetShowStatusError | molequeue/app/jobtableproxymodel.cpp:134-142 | sets the Error box and nothing else; only a new value invalidates and saves |
| JobTableFilter.ProxyModel.FilterAcceptsRow | molequeue/app/jobtableproxymodel.cpp:154-240 | the row-by-row check returns exactly the acceptance of the current filter |
| JobTableFilter.ProxyModel.TermsPass | molequeue/app/jobtableproxymodel.cpp:207-234 | the loop over terms stops at the first failing term and returns whether all terms pass |
| JobTableFilter.ProxyModel.AnyColumnMatches | molequeue/app/jobtableproxymodel.cpp:218-227 | the loop over columns returns whether some text column contains the term's body, ignoring case |
| FileSpecification.Filename | molequeue/filespecification.cpp:151-164 | the file name of a specification is a bare name: it never holds a '/' |
| FileSpecification.Filepath | molequeue/filespecification.cpp:191-196 | a specification has an absolute path exactly when it is in path format |
| FileSpecification.FileExists | molequeue/filespecification.cpp:122-128 | only a path specification can report that its file exists |
| FileSpecification.WriteFile | molequeue/filespecification.cpp:130-149 | an invalid specification, or a target file that does not open, writes nothing |
| FileSpecification.DistinctKeys | molequeue/filespecification.cpp:101-105 | the three member names the format test looks at are distinct |
| FileSpecification.BareName | molequeue/filespecification.cpp:160-162 | a name with no '/' is its own file name |
| FileSpecification.PathSpec | molequeue/filespecification.cpp:99-196 | an object holding a "path" string is a path specification whose file name is the path's last component and whose file path is the path made absolute |
| FileSpecification.ContentsSpec | molequeue/filespecification.cpp:99-189 | an object without "path" but with "filename" and "contents" strings is a contents specification whose name is the last component of "filename" and whose contents are the stored text, whatever the disk holds |
| FileSpecification.PathRoundTrip | molequeue/filespecification.cpp:43-46 | a specification built from a path reports path format, that path's file name and its absolute path |
| FileSpecification.ContentsRoundTrip | molequeue/filespecification.cpp:48-53 | a specification built from a name and a text reports contents format, the name's file name, exactly that text and no file path |
| FileSpecification.PathWins | molequeue/filespecification.cpp:99-110 | once "path" is present the specification is in path format, whatever else it holds |
| FileSpecification.HalfContentsIsInvalid | molequeue/filespecification.cpp:99-110 | without "path", a specification missing "filename" or "contents" is invalid, with an empty name and empty contents |
| FileSpecification.InvalidIsEmpty | molequeue/filespecification.cpp:130-211 | an invalid specification has an empty name, no file path and empty contents, writes nothing and has no extension |
| FileSpecification.FilepathEndsInFilename | molequeue/filespecification.cpp:159-196 | the file name of a path specification is the last component of its absolute file path |
| FileSpecification.WriteOwnName | molequeue/filespecification.cpp:130-149 | writing a valid specification without a name, when the file opens, writes its contents into a file carrying the specification's own file name |
| FileSpecification.NameWithExtension | molequeue/filespecification.cpp:198-211 | for a path ending in base.ext, the base name is base, the extension is ext and the file has an extension exactly when ext is not empty |
| FileSpecification.NameWithoutExtension | molequeue/filespecification.cpp:198-211 | for a path whose last component has no dot, the base name is that component and there is no extension |
| FileSpecification.FromUnreadableFile | molequeue/filespecification.cpp:62-68 | a contents specification built from a file that cannot be read keeps only its name and is invalid |
| FileSpecification.FromReadFile | molequeue/filespecification.cpp:62-71 | a contents specification built from a readable file has the file's name and exactly the text read |
| FileSpecification.AbsoluteTwice | molequeue/filespecification.cpp:60 | making a path absolute twice gives the same path as doing it once |
| FileSpecification.FromFilePath | molequeue/filespecification.cpp:59-61 | a path specification built from a file reports the file's name and its absolute path |
| LegacyFileSpec.Filename | molequeue/filespec.cpp:185-199 | the file name of a specification is a bare name: it never holds a '/' |
| LegacyFileSpec.Filepath | molequeue/filespec.cpp:227-233 | a specification has an absolute path exactly when it is in path format |
| LegacyFileSpec.FileExists | molequeue/filespec.cpp:151-162 | only a path specification can report that its file exists |
| LegacyFileSpec.WriteFile | molequeue/filespec.cpp:164-183 | an invalid specification, or a target file that does not open, writes nothing |
| LegacyFileSpec.DistinctKeys | molequeue/filespec.cpp:124-128 | the three member names the format test looks at are distinct |
| LegacyFileSpec.CStringWhole | molequeue/filespec.cpp:195-222 | reading a string member as a C string gives the whole string when it holds no NUL character |
| LegacyFileSpec.PathSpec | molequeue/filespec.cpp:120-233 | an object holding a "filepath" string is a path specification whose file name and absolute path come from that string as far as its first NUL |
| LegacyFileSpec.ContentsSpec | molequeue/filespec.cpp:120-225 | an object without "filepath" but with "filename" and "contents" strings is a contents specification; its name comes from "filename" and its contents are the stored text up to the first NUL, whatever the disk holds |
| LegacyFileSpec.PathRoundTrip | molequeue/filespec.cpp:51-57 | a specification built from a path without NUL reports path format, that path's file name and its absolute path |
| LegacyFileSpec.ContentsRoundTrip | molequeue/filespec.cpp:59-66 | a specification built from a name and a text reports contents format, the name's file name and no file path; the contents read back are the text up to its first NUL, and the whole text when it has none |
| LegacyFileSpec.NonObjectIsInvalid | molequeue/filespec.cpp:120-149 | a specification whose value is not an object is invalid: its hash is empty, its name, path and contents are empty and it writes nothing |
| LegacyFileSpec.HashRoundTrip | molequeue/filespec.cpp:44-49 | the hash read back from a specification built from a convertible hash is that hash with its numbers widened as the JSON conversion widens them |
| LegacyFileSpec.HashWithPath | molequeue/filespec.cpp:44-49 | a specification built from a hash with a "filepath" string is a path specification named after that path |
| LegacyFileSpec.FromUnreadableFile | molequeue/filespec.cpp:78-85 | a contents specification built from a file that cannot be read keeps only its name and is invalid |
| LegacyFileSpec.FromReadFile | molequeue/filespec.cpp:78-88 | a contents specification built from a readable file has the file's name and the text read, up to its first NUL |
| LegacyFileSpec.BareNameNoNul | molequeue/filespec.cpp:80 | the file name of a path without NUL holds no NUL |
| LegacyFileSpec.BareName | molequeue/filespec.cpp:195-197 | a name with no '/' is its own file name |
| LegacyFileSpec.InvalidNeverWritten | molequeue/filespec.cpp:164-193 | an invalid specification writes nothing and has an empty name |
| ActionFactories.Factory.constructor | molequeue/app/actionfactorymanager.cpp:84 | a factory starts with its own flags and no server until a manager adopts it |
| ActionFactories.MatchingMembers | molequeue/app/actionfactorymanager.cpp:94-103 | the factories returned for some flags are exactly the held factories whose flags contain every requested bit |
| ActionFactories.MatchingNothing | molequeue/app/actionfactorymanager.cpp:94-103 | asking for no flags returns every held factory, in order |
| ActionFactories.MatchingTwice | molequeue/app/actionfactorymanager.cpp:94-103 | narrowing the result for flags a by flags b is the same as asking once for a and b together |
| ActionFactories.Manager.constructor | molequeue/app/actionfactorymanager.cpp:25-29 | a new manager holds no factories, has no server and has scheduled nothing for deletion |
| ActionFactories.Manager.SetServer | molequeue/app/actionfactorymanager.h:53 | records the server for later factories and changes nothing else |
| ActionFactories.Manager.AddFactory | molequeue/app/actionfactorymanager.cpp:81-87 | a factory already held is ignored and keeps its server; a new one is given the manager's server and goes last, and no factory is ever held twice |
| ActionFactories.Manager.FactoriesWith | molequeue/app/actionfactorymanager.cpp:94-103 | the loop returns, in the list's order, exactly the factories whose flags contain all requested bits |
| ActionFactories.Manager.RemoveFactory | molequeue/app/actionfactorymanager.cpp:105-109 | removes the first occurrence of the factory (so no copy remains, the others keep their order) and schedules it for deletion whether it was held or not |
| ActionFactories.Registry.constructor | molequeue/app/actionfactorymanager.cpp:23 | before first use there is no shared manager |
| ActionFactories.Registry.Instance | molequeue/app/actionfactorymanager.cpp:72-79 | the first call makes a new, empty manager and stores it; every later call returns that same manager |
| FileInfo.FileNameIsSuffix | molequeue/filespecification.cpp:160 | a file name is the tail of its path after the last '/', and the whole path when there is none |
| FileInfo.AbsoluteKeepsFileName | molequeue/filespecification.cpp:191-196 | making a path absolute does not change its file name |
| FileInfo.DirAbsolutePath | molequeue/client.cpp:108 | QDir(path).absolutePath() starts with '/' whenever the path or the current directory does |
| FileInfo.NameParts | molequeue/filespecification.cpp:198-211 | for a name base.ext with no other dot, the base name is base and the suffix is ext; a name with no dot is its own base name and has no suffix |
| TextOps.SplitJoinRoundTrip | molequeue/app/jobtableproxymodel.cpp:205-206 | splitting at white space the terms joined by a white-space character gives back exactly those terms |
| TextOps.SplitKeepsText | molequeue/app/jobtableproxymodel.cpp:205-206 | splitting drops only the separator characters: the parts concatenated are the text without them |
| TextOps.ReplaceAbsent | molequeue/job.cpp:133-136 | replacing a pattern the text does not contain leaves the text unchanged |
| TextOps.ReplaceSelf | molequeue/job.cpp:133-136 | replacing a pattern by itself leaves the text unchanged |
| TextOps.ReplaceLength | molequeue/job.cpp:133-136 | each of the non-overlapping occurrences replaced changes the length by the difference between replacement and pattern |
| StringOrder.SortedStrings | molequeue/job.cpp:121 | the keys of a map are listed once each, in strictly increasing string order |
| StringOrder.LessTotal | molequeue/job.cpp:121 | any two distinct keys are ordered one way or the other |

## Left out

- Sockets, ZeroMQ streams, the Python client's IO-loop thread, its lock and condition variable, and `connect_to_server`/`disconnect` are not modelled. Each thread action is a sequential method, and replies that arrive during a wait are an input sequence.
- `PyClient.Client.WaitForResponse`: the `timeout` argument has no effect on the code's loop, so the model has no timeout outcome.
- The Python client's `cancel_job`, `lookup_job` and `request_queue_list_update` are empty placeholders and are not modelled.
- The Python client's parameter marshalling (`JsonRpc.jobrequest_to_json_params`, `JsonRpc.generate_request`) is not modelled. The request frame is built by `PyClient.RequestFrame` from the method and parameters given.
- The message id manager of the transport layer and `Connection::send` are inputs to `TransportMessage.Message.Send`. The connection's real I/O is not modelled.
- Floating point: numbers are exact (`real`). The integrality test with tolerance 1e-5 on an error `code` is modelled on exact values (`TransportMessage.ReadError`), as are the conversions that truncate or round (`toInt`, `static_cast<int>(x + 0.5)`, `toLongLong`). IEEE rounding of large values is not modelled.
- The `realValue`/Double branches of the variant/JSON conversion are kept as exact reals.
- `JobDataModel.ToText`: a double variant reads as the empty text. QVariant::toString would print its shortest decimal form, which needs IEEE formatting. No double reaches a text member of a job's hash.
- `IdTypes.VariantToIdType`, `JobDataModel.ToInt` and `JobDataModel.ToBool`: a QByteArray variant is read exactly like a QString. QByteArray's own toLongLong does not skip trailing white space, so a byte array such as `"5 "` reads as 5 here where Qt gives 0.
- JsonCpp: the model assumes the behaviour of the 0.6 releases of the time; the library is not part of this model. `asLargestUInt` throws on a negative value (JSON_ASSERT_MESSAGE throws). The const `operator[]` asserts on a value that is neither an object nor null, and the model takes that assertion as ending the handler (`Threw`, or `thrown` in an outcome). `isIntegral` holds for int and uint values only; the older releases that also count booleans are not modelled.
- `QtJson::toJson` and `QtJson::toVariant`, called at molequeue/clientjsonrpc.cpp:44 and 391 and molequeue/serverjsonrpc.cpp:103 and 270, are taken to be `qtToJson` and `jsonToQt` of molequeue/qtjson.cpp (`QtJson.QtToJson`, `QtJson.JsonToQt`). The header that declares them is not part of this model.
- `JobStates.FromOrdinal`: an integer outside -1..9 reads as `Unknown`. `static_cast<JobState>` keeps the raw value, which matches no named state; the model has no value for it.
- Log and debug output (`Logger::logError`, `logWarning`, `logDebugMessage`, `qDebug`) is left out wherever it is only a message. Log entries are modelled only inside the logger itself.
- The logger's singleton accessor, its file persistence apart from reading `maxEntries` and `entries`, the print-to-console flags, and `logentry.cpp` are not part of this model.
- `Logging.Logger.HandleNewError`: `m_newErrorCount` is an unbounded integer. Its overflow after 2^31 errors is not modelled.
- molequeueglobal.h is not part of this model. The job state values (Unknown = -1, None = 0, then declaration order) and `InvalidId` as the largest unsigned 64-bit value are taken from how the rest of the code uses them.
- `JobManager::loadJobState`/`syncJobState` and `JobData::setFromJson`/`load`/`save` (file I/O) are not modelled. `AppJobManager.JobManager.NewJob` takes the fields read from JSON as a parameter.
- The job registries' signals are recorded in order (`signals`). The slots connected to them elsewhere are not executed, except `moleQueueIdChanged`, which the registry handles itself.
- `QueueManager::readSettings` (listing the configuration directory), `writeSettings` and `updateRemoteQueues` are not modelled. The queues found on disk are an input.
- The settings file I/O of a queue (`Queue::readSettings`, `writeSettings`, `importSettings`, `exportSettings`, `queueTypeFromFile`), `writeInputFiles` and `cleanLocalDirectory` are left out. The JSON object read or written is what the model works on.
- `Queue::submitJob`, `prepareJobForSubmission` and the subclasses' `submitPendingJobs` are not modelled beyond the bookkeeping after a submission reply.
- `QueueLocal::startJob`, `processStarted`, `processFinished`, `processError`, the timer event and `prepareJobForSubmission` (QProcess and timer I/O) are left out. Whether `startJob` succeeds is the oracle `starts`.
- The queue constructors of the OAR, SLURM and PBS queues only set command names and launch templates, which are plain constants. The request command is a parameter of the command builders, and the template text is not modelled.
- SSH commands (`SshCommand`, `SshConnection`), copying files to and from the cluster, and `QueueRemote`'s settings checks are left out. Exit codes, outputs and whether a command starts are inputs.
- The UIT SOAP requests, Kerberos authentication, the XML parsers of the service's answers, and the directory transfers are left out. The job events a status request returns are the input to `QueueUit.UitQueue.HandleQueueUpdate`.
- The SGE queue and the early prototype queues are not part of this model.
- `FileSpecification.WriteFile`, `FileExists` and `ContentsOf`: the file system is a parameter (does the file open, the text read, the files that exist). The bytes written through `toLocal8Bit` are the text itself, because no encoding is modelled.
- `FileSpecification::toJson` and `FileSpec::asJsonString` (serialised text) are not modelled. Copy construction and assignment are the identity on a value type.
- The `default:` branch of the `QFile*` constructor (a format outside the enumeration) cannot be reached with the enumeration as a datatype, so it is left out.
- The QJsonValue overloads of `toIdType` and `idTypeToJson`, called at molequeue/app/queue.cpp:214 and 268 and molequeue/app/queues/local.cpp:85-87 and 117, are declared in a header that is not part of this model. They are taken to write a valid id as a double and null for InvalidId, and to read any number by adding 0.5 and truncating, as the same code reads `cores` (`IdTypes.QJsonToIdType`, `IdTypes.IdTypeToQJson`). A double holds integers exactly only up to 2^53; larger ids lose precision in Qt, which the exact reals here do not model.
- `PyClient.KeyOf`: a JSON float and an integer are one key when they are equal as exact numbers. Python compares a float with an int exactly too, but a JSON float above 2^53 is rounded when decoded, which is not modelled.
- `PyClient.Client.WaitForResponse`: a reply whose id raises TypeError in `_on_response` stores nothing and the wait goes on. What the IO loop does with the exception is not modelled.
- Character classes are ASCII only: `TextOps.IsSpace` (QChar::isSpace, used by `trimmed` and `split`) and `QueueScan.IsWordChar` (QRegExp's `\w`). Qt's Unicode classes are not modelled. The scheduler answers parsed here are taken to be ASCII.
- JsonCpp's `asCString` on a member that is not a string (it throws) is not modelled. The legacy file specification reads such a member as empty text.
- `FileInfo`: paths use '/' only. `AbsoluteFilePath` joins a relative path to the current directory without cleaning it, as QFileInfo does. No drive letters, symbolic links or file system lookups are modelled.
- Letter case: `TextOps.Lower` folds ASCII letters only. Qt's Unicode case folding is not modelled, and neither are normalisation or encodings.
- `PrototypeJob.Job.ExpandedRunTemplate`: an empty pattern (empty delimiter and key) leaves the template unchanged. QString::replace with an empty pattern inserts the replacement between every character, which is not modelled.
- `Programs.FormattedExecutionString`: the chaining of `QString::arg` is modelled as plain substitution. A `%1`-like sequence inside an argument that a later `arg` would rewrite is not modelled.
- The job-action factory manager's `readSettings`, `writeSettings`, `factoriesOfType` and destructor (QSettings I/O and `qDeleteAll`) are left out. A factory's own actions are outside this model.
- The older revision of the job-action factory manager (molequeue/actionfactorymanager.cpp) has the same bodies under the names `getFactories` and `getInstance`, and is modelled by the same members.
- The job table filter reads a row's display columns as an input sequence. Its header files and the item models that produce the columns are not part of this model. The app revision's destructor calls `saveState`, which is `JobTableFilter.ProxyModel.SaveState`.
- GUI dialogs, windows, widgets, item models, plugins and the server's listener management are not part of this model.

## Findings

| source | as written | input that shows it | evidently intended | confidence | as-written member | corrected member |
|---|---|---|---|---|---|---|
| molequeue/jsonrpc.cpp:961-1000 | two defects: the handler demands an array result (line 966) while `generateQueueList` (lines 257-287) writes an object keyed by queue name; and the `continue` after `if (programArray.isNull())` (lines 989-991) has no braces, so it runs for every element and no program list is ever read | the queue list this class itself builds, `{"Local": ["sleep"]}`, is refused as ill-formed at line 966; an array result such as `[{"programs": ["sleep"]}]` passes that check and gives an empty queue list (`[{"programs": null}]` gives one unnamed entry with no programs) | the result object is read member by member, a null or non-array program list gives an empty list, and the loop continues only in that case | not executed | LegacyJsonRpc.AsWrittenRejectsGeneratedList, LegacyJsonRpc.AsWrittenReportsNoPrograms, LegacyJsonRpc.ProgramsNeverRead | LegacyJsonRpc.ListQueuesResult, LegacyJsonRpc.QueueListRoundTrip |
| molequeue/jsonrpc.cpp:315-343 | an unparsable packet is reported and the root the reader leaves is still interpreted; a non-object is reported as an invalid request and then classified again, without a return | the bytes `x` leave a null root and give three reports (unparsable, then invalid request twice); the bytes `{` leave an empty object and give two (unparsable, then invalid request); the value `null` is reported as invalid twice; a number such as `3` fails JsonCpp's assertion at `root["id"]` with no report (LegacyJsonRpc.UnparsableObjectReportedTwice, LegacyJsonRpc.ScalarAssertsAsWritten) | each bad packet is reported once, with a null id for a value that is not an object | not executed | LegacyJsonRpc.UnparsableReportedThrice, LegacyJsonRpc.NonObjectReportedTwice | LegacyJsonRpc.InterpretPacket, LegacyJsonRpc.InterpretSingle |
| python/molequeue/client.py:134-138 | the error branch of `submit_job_request` reads the undefined name `reponse` | any reply with an `error` member raises `NameError` instead of `JobRequestException` | the error's code and message are read from `response` and raised as a `JobRequestException` with the response's own `id` (the error object of JSON-RPC 2.0 has no `id`, so `error['id']` would raise KeyError, see PyClient.TypoFixAloneRaisesKeyError) | not executed | PyClient.ErrorReplyRaisesNameError | PyClient.SubmitReply |
| molequeue/jobdata.cpp:99-102 | `setFromHash` reads the 64-bit ids with `toUInt`, keeping only their low 32 bits | a new job's hash (ids `InvalidId`) reads back with id 4294967295, a valid id; any id of 2^32 or more changes | ids read with the 64-bit conversion, so `setFromHash(hash())` restores every field | not executed | JobDataModel.AsWrittenRoundTrip, JobDataModel.AsWrittenLosesInvalidId | JobDataModel.HashRoundTrip |
| molequeue/app/jobmanager.cpp:197-201 | the old key is looked up with `InvalidId` as the not-found answer and is removed only when it differs from it; the older molequeue/jobmanager.cpp:151-160 does the same with the sentinel 0 | a job mapped under `InvalidId` (under 0 in the older revision) that gets a real id stays mapped under the sentinel too | the job's old entry is removed whatever its key; no caller in the code at hand maps a job under the sentinel (insertJobData at molequeue/app/jobmanager.cpp:242-249 skips `InvalidId`, the older insertJob at molequeue/jobmanager.cpp:195-204 skips 0), so the stale entry needs an input that code does not produce | not executed | JobIndex.AsWrittenLeavesStaleEntry | JobIndex.Rekey, JobIndex.RekeyDropsStaleEntry, LegacyJobManager.JobManager.SetJobIds |
| molequeue/app/queuemanager.cpp:188-205 | `stateFileName()` is read after the queue took its new name, so the file removed is the new one, which `writeSettings` writes again | renaming queue A to B with `A.mqq` on disk leaves both `A.mqq` and `B.mqq` | the old name's state file is removed and the new one written | not executed | QueueManagers.RenameAsWrittenKeepsOldFile, QueueManagers.RenameAsWrittenExample | QueueManagers.RenameFiles, QueueManagers.StateFilesDiffer |
| molequeue/job.cpp:118-125 | `replacementList` assigns each line with `=` instead of appending it | replacements `{a: 1, b: 2}` list only `Keyword: b = 2` | one line per keyword, in key order | not executed | PrototypeJob.Job.ReplacementListAsWritten, PrototypeJob.LastLineLosesKeys | PrototypeJob.Job.ReplacementList, PrototypeJob.LinesListEveryKey |
| molequeue/queues/remotessh.cpp:306-330 | the checking flag is set before `execute`, and the failure branch returns without clearing it | one SSH command that cannot be started blocks every later queue status request | the flag is cleared when the command cannot be started | not executed | RemoteSsh.FailedStartBlocksRequests | RemoteSsh.RequestStep, RemoteSsh.RemoteQueue.RequestQueueUpdate |
| molequeue/queues/remotessh.cpp:275-303 | the result of `parseQueueId` is ignored, and the uninitialised `queueId` is recorded for a successful submission | SLURM's `sbatch` output `Submitted batch job 42` followed by a newline is refused by the pattern's `$`, yet the job is recorded under an arbitrary id | a submission whose id cannot be read is treated as failed, and only a parsed id is recorded | not executed | RemoteSsh.UnreadIdRecorded | RemoteSsh.Submitted, RemoteSsh.RemoteQueue.HandleSubmissionReply |
| molequeue/app/logger.cpp:253-259 | `trimLog` erases `size - maxEntries` entries from the start, and a negative `maxEntries` can be loaded from the log file (lines 80-83) | a log file holding `"maxEntries": -2.0` loads -1; the next entry erases past the end of the list | the bound is never below 0, so at most the whole log is removed | not executed | Logging.NegativeBoundErasesPastEnd, Logging.NegativeBoundLoads | Logging.Logger.TrimLog, Logging.NewestFacts |
