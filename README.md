# laf core, modelled in Dafny

This project models the decision logic of laf, a cloud-function platform. Each source
file of the core is one Dafny module (one `.dfy` file).

- **Runtime.** The runtime is the Node.js process that runs deployed functions.
  - The HTTP entry point picks a path:
    - the debug path, when a develop token is sent;
    - otherwise the normal path.
  - The normal path:
    - resolves the function, falling back to `__default__`;
    - gates the HTTP method, with a trigger-token bypass.
  - The debug path checks the develop token and decodes the function data from one of two
    payload headers.
  - Both paths map the executor's result to a reply in the same way:
    - an error gives 500;
    - the interceptor's refusal gives 403;
    - numbers are sent as text;
    - nothing is written once the function has ended the response.
  - The debug path also sets its log and time headers.
  - Related pieces:
    - the function console, with its level filter, line format and the debug console's
      append-only buffer;
    - the websocket bridge, which aims every socket event at one reserved function;
    - the legacy entry point, which loads functions from the database.
- **Server.** The server is the NestJS control plane.
  - Application service:
    - bundle-resource arithmetic;
    - application-id generation and its bounded retry loop;
    - the records written by create, remove and updateBundle.
  - Application controller:
    - the ordered creation guards;
    - the start, stop and restart rules;
    - the restart that follows a bundle update;
    - the delete guard.
  - Utilities and DTOs:
    - the namespace getter and the condition lookup;
    - the DTO checks for applications and function templates;
    - the response envelope.
  - Authentication:
    - the phone sign-in, with signup on a first sign-in;
    - binding a phone or a username;
    - the personal-access-token exchange.
- **Client.**
  - The command-line tool's dependency sync:
    - `pull` builds the dependency dictionaries;
    - `push` sends one add or update request per local dependency;
    - `add` defaults the version spec.
  - The web console's layout store, where panels toggle and resize.
  - The web console's settings store, which turns a list into an object keyed by `key`.
  - The bundler's chunk-naming rule.

Collaborators are parameters of the model, usually fields of an `Env` record of functions:

- the function cache and the database;
- token parsing, the executor, the decoders and encoders;
- the clock, the random source and the UUID source;
- SMS and user services.

JavaScript values are a small `Value` datatype with JavaScript truthiness and the loose
`== false` comparison. Numbers are integers.

Helper modules:

- `Wrappers`: `Option` and `Result`.
- `Js`: values, truthiness, loose equality.
- `JsString`: these JavaScript string operations:
  - `Number.prototype.toString` for integers, with its inverse;
  - ASCII `toUpperCase`;
  - `indexOf` and `includes`;
  - `split` and `join`;
  - lodash `padStart`.
- `JsonStrings`: `JSON.stringify` of a string array, a parser for its output and the round
  trip.
- `Engine`: the function cache and the reserved function names.

## Model

| member | source | states |
|---|---|---|
| Invoke.Respond | runtimes/nodejs/src/handler/invoke.ts:83-106 | The reply to a returned result. 500 with `{error:'Internal Server Error', requestId}` iff the error is truthy. Else 403 with `{error:'Forbidden', requestId}` iff the data is the interceptor's refusal. Else nothing written iff the response has ended. Else `send` of the data, with numbers as text. |
| Invoke.Resolve | runtimes/nodejs/src/handler/invoke.ts:62-68 | The requested function if cached, else `__default__` if cached. None iff neither is cached. |
| Invoke.InvokeFunction | runtimes/nodejs/src/handler/invoke.ts:48-111 | The normal path runs deployed functions only. The run uses the requested name and the given interceptor flag. No header is set. |
| Invoke.InvokeDebug | runtimes/nodejs/src/handler/invoke.ts:114-221 | The debug path runs only function data from the request. The run uses the requested name and the given interceptor flag. |
| Invoke.HandleInvokeFunction | runtimes/nodejs/src/handler/invoke.ts:17-45 | A run is a debug run iff a develop token was sent, and it uses the interceptor iff `__interceptor__` is cached. Without a develop token no header is set, the reply is 404 `Function Not Found` iff neither the name nor `__default__` is cached, and the function run is the one Resolve finds. |
| Invoke.DebugLines | runtimes/nodejs/src/handler/invoke.ts:177-181 | The debug console's buffer after a run: the function's own lines unchanged. On a truthy error, exactly one more line follows, the formatted ERROR line, emitted whatever the configured level. |
| Invoke.DebugHeaders | runtimes/nodejs/src/handler/invoke.ts:181-192 | The time-usage header is always set, to the decimal time. `x-laf-debug-logs` is set iff `x-laf-debug-data` was sent, and holds the gzip+base64 of the logs' JSON. Otherwise `x-laf-func-logs` is set iff `x-laf-func-data` was sent, and holds the percent-encoded JSON. No other header. |
| Invoke.DebugPathIffDevelopToken | runtimes/nodejs/src/handler/invoke.ts:34-44 | A run is a debug run iff a develop token was sent. Every run uses the interceptor iff it is cached. Without a develop token no header is set. |
| Invoke.NoMissingTokenReply | runtimes/nodejs/src/handler/invoke.ts:119-122 | The entry point never answers `x-laf-develop-token is required`. The debug path is entered only when the token is present. |
| Invoke.NormalPathReplies | runtimes/nodejs/src/handler/invoke.ts:62-110 | Every explicit status on the normal path is 403, 404, 405 or 500. |
| Invoke.LookupOrder | runtimes/nodejs/src/handler/invoke.ts:62-68 | The function that runs is the requested one if cached, else `__default__`. 404 `Function Not Found` iff neither is cached, whatever the trigger token. |
| Invoke.MethodGate | runtimes/nodejs/src/handler/invoke.ts:55-75 | 405 `Method Not Allowed` iff a function was found, its methods lack the upper-cased request method, and the parsed trigger token is falsy. The function runs iff found and (method enabled or trigger). |
| Invoke.NormalPathAfterExecution | runtimes/nodejs/src/handler/invoke.ts:77-110 | After a normal run, a thrown executor gives 500 text. A returned result gives the shared reply (Respond). No header is set. |
| Invoke.ErrorBeforeRejection | runtimes/nodejs/src/handler/invoke.ts:83-98 | An error and a refusal together give the 500 error reply, not 403. |
| Invoke.RejectionShape | runtimes/nodejs/src/handler/invoke.ts:92-96 | `__res__` of `false`, `"0"` or `[]` refuses. `null`, a missing `__res__` or another `__type__` does not. |
| Invoke.RejectionOf | runtimes/nodejs/src/handler/invoke.ts:92-96 | An object typed `__interceptor__` refuses iff its `__res__` is loosely equal to false. |
| Invoke.MissingResIsNoRejection | runtimes/nodejs/src/handler/invoke.ts:92-96 | Without `__res__` (undefined) there is no refusal. |
| Invoke.OtherTypeIsNoRejection | runtimes/nodejs/src/handler/invoke.ts:92-96 | The `__type__` must be exactly `__interceptor__`. |
| Invoke.SendFormKeepsData | runtimes/nodejs/src/handler/invoke.ts:100-105 | A number is sent as decimal text that parses back to the same number. Any other data is sent unchanged. |
| Invoke.DebugValidation | runtimes/nodejs/src/handler/invoke.ts:124-129 | A develop token whose parsed `type` is not `develop` gives 403 `permission denied: invalid develop token`, with no run and no header. The reply does not depend on either payload decoder. |
| Invoke.DebugDataPreferred | runtimes/nodejs/src/handler/invoke.ts:135-145 | When `x-laf-debug-data` is sent, the `x-laf-func-data` decoder is never consulted. |
| Invoke.DebugPayloadErrors | runtimes/nodejs/src/handler/invoke.ts:135-156 | With a develop token, a debug-data payload that does not decode gives 400 `x-laf-debug-data is invalid`. A func-data payload that does not decode gives 400 `x-laf-func-data is invalid`. Neither header gives 400 `x-laf-debug-data is required`. |
| Invoke.DebugNeverNotFound | runtimes/nodejs/src/handler/invoke.ts:114-221 | The debug path never answers 404 or 405. |
| Invoke.DebugRunsDecodedData | runtimes/nodejs/src/handler/invoke.ts:158-174 | A debug run happens only after a develop token. It runs exactly the decoded, truthy function data, under the requested name. |
| Invoke.DebugHeadersAfterRun | runtimes/nodejs/src/handler/invoke.ts:176-216 | After a returned debug run, the headers are those of DebugHeaders, so the time usage is set even on error. `x-laf-func-logs` is set iff `x-laf-debug-data` was not used. The logs' JSON parses back to the buffer. The reply is the shared one. |
| Console.RankOfName | runtimes/nodejs/src/support/engine/console.ts:99-107 | A name has a rank iff it is one of the four level names, and then it is that level's rank. |
| Console.ParamTexts | runtimes/nodejs/src/support/engine/console.ts:32-43 | One text per parameter, in order. |
| Console.Emitted | runtimes/nodejs/src/support/engine/console.ts:50-78 | A method call emits at most one line. It emits one iff its level passes the filter, and that line is the formatted one. |
| Console.ShouldLogMonotone | runtimes/nodejs/src/support/engine/console.ts:108 | If a level passes, every level of higher rank passes. |
| Console.ConfiguredThreshold | runtimes/nodejs/src/support/engine/console.ts:99-109 | A configured level name, in any case, passes exactly the levels of its rank or above. |
| Console.UnsetLevelEmitsAll | runtimes/nodejs/src/support/engine/console.ts:106 | An unset or empty `LOG_LEVEL` is `debug`: every level passes. |
| Console.UnknownLevelEmitsAll | runtimes/nodejs/src/support/engine/console.ts:107 | An unrecognised level name counts as rank 0: every level passes. |
| Console.ErrorAlwaysEmitted | runtimes/nodejs/src/support/engine/console.ts:99-109 | ERROR passes every configuration. |
| Console.LogIsInfo | runtimes/nodejs/src/support/engine/console.ts:56-66 | `log` and `info` emit identical lines under every configuration. |
| Console.FormatShape | runtimes/nodejs/src/support/engine/console.ts:21-47 | A line is the time and a space, then five columns holding the level name right-aligned over blanks, then a space and the bracketed category. |
| Console.Console.constructor | runtimes/nodejs/src/support/engine/console.ts:17-19 | The console keeps its category. |
| Console.Console.Call | runtimes/nodejs/src/support/engine/console.ts:50-78 | A line is written iff the level passes, and it is the formatted line for the method's level. |
| Console.DebugConsole.constructor | runtimes/nodejs/src/support/engine/console.ts:112-117 | A new debug console has its category and an empty buffer. |
| Console.DebugConsole.Call | runtimes/nodejs/src/support/engine/console.ts:119-123 | The buffer grows by exactly the emitted line, if any, at the end. Earlier lines and the category are unchanged, so a filtered call buffers nothing. |
| Console.DebugConsole.GetLogs | runtimes/nodejs/src/support/engine/console.ts:125-127 | The buffer serialised as JSON, which parses back to the same lines in the same order. It reads the state and changes nothing. |
| WebSocket.OnEvent | runtimes/nodejs/src/support/ws.ts:65-87 | `WebSocket handler not found` iff no websocket function is cached. Otherwise one execution aimed at the websocket function, with the given request id and socket. Headers are present iff the event is the connection event, and are then the request's headers. |
| WebSocket.ContextPerEvent | runtimes/nodejs/src/support/ws.ts:35-55 | Each event's method name and params: connection has null; message has `{data, isBinary}`; error has the error itself; close has `{code, reason}`. |
| WebSocket.MethodsDistinguishEvents | runtimes/nodejs/src/support/ws.ts:37-55 | Equal method names come from events of the same kind. |
| WebSocket.TargetIndependentOfSocket | runtimes/nodejs/src/support/ws.ts:77 | The target function name is the same for every event, socket and request id. |
| WebSocket.WebSocketServer.On | runtimes/nodejs/src/support/ws.ts:16-19 | Registering a listener appends its event name and changes nothing else. |
| WebSocket.WebSocketAgent.constructor | runtimes/nodejs/src/support/ws.ts:11 | No server exists at first. |
| WebSocket.WebSocketAgent.Server | runtimes/nodejs/src/support/ws.ts:13-23 | The first use creates a fresh server with the `connection` and `error` listeners. Later uses return the same server with its listeners unchanged. |
| WebSocket.ServerTwice | runtimes/nodejs/src/support/ws.ts:13-23 | Two uses of the getter return one and the same server, whose listeners were registered once. |
| InvokeFunc.Loaded | runtimes/nodejs/src/handler/invoke-func.ts:24-34 | A function is found iff the name is stored, or it is not `healthz` and `__default__` is stored. The stored name wins. Otherwise the function is `__default__`. |
| InvokeFunc.Run | runtimes/nodejs/src/handler/invoke-func.ts:40-87 | 405 `Method Not Allowed` iff the function lacks the upper-cased method, and a call is made iff it has it. The call is the function under its own name. A throw gives 500 text, a truthy error 400 with the fixed message and the request id; otherwise the data is sent unchanged unless the response has ended. |
| InvokeFunc.HandleInvokeFunction | runtimes/nodejs/src/handler/invoke-func.ts:19-88 | When Loaded finds a function, the outcome is Run of that function. With nothing found, an unstored `healthz` gets 200 `ok` and any other name 404 `Function Not Found`, both without a run. |
| InvokeFunc.HealthzOnlyWhenUnknown | runtimes/nodejs/src/handler/invoke-func.ts:24-28 | 200 `ok` without a run iff the name is `healthz` and no such function is stored. |
| InvokeFunc.LookupOrder | runtimes/nodejs/src/handler/invoke-func.ts:24-37 | The function that runs is the one found. The context names it by its own name. 404 iff the name is not stored, is not `healthz`, and `__default__` is missing. |
| InvokeFunc.FallbackNamedDefault | runtimes/nodejs/src/handler/invoke-func.ts:57 | When functions are stored under their own names, a fallback run's `__function_name` is `__default__`. |
| InvokeFunc.MethodGate | runtimes/nodejs/src/handler/invoke-func.ts:40-42 | 405 iff the found function lacks the upper-cased method. No trigger token bypasses it. |
| InvokeFunc.AfterCall | runtimes/nodejs/src/handler/invoke-func.ts:59-87 | After the call, an error gives 400 with the fixed message and the request id, not 500. A throw gives 500 text. Otherwise the data is sent unchanged, numbers included, unless the response has ended. |
| ApplicationService.BuildBundleResource | server/src/application/application.service.ts:354-387 | The CPU, memory and capacities are copied from the request. The request CPU is a tenth of the limit and the request memory a half, both rounded down. Cloud functions and storage TPS equal the CPU; database TPS equals the request CPU. Buckets, database policies and website hostings are the CPU in hundreds, at least 3. Triggers are the CPU in hundreds, at least 1. The reserved time after expiry is 31 days in seconds. |
| ApplicationService.BundleResourceMonotone | server/src/application/application.service.ts:354-387 | A request with at least as much CPU and memory never gets a smaller resource, field by field. |
| ApplicationService.GenerateAppID | server/src/application/application.service.ts:343-352 | The id has the configured length, or 6 when that is 0. It starts with a lower-case letter; the rest are lower-case letters or digits. |
| ApplicationService.TryGenerateUniqueAppid | server/src/application/application.service.ts:328-341 | A returned id is the first candidate of the attempts that is not taken, and it is not taken. Failure means every one of the attempts was taken, and its message is the fixed one. |
| ApplicationService.NewApplication | server/src/application/application.service.ts:80-96 | The new application has the given id and name, the given state or Running, the phase Creating and no tags. |
| ApplicationService.NewBundle | server/src/application/application.service.ts:68-77 | The new bundle's resource is the one built from the request, and it records the trial flag. |
| ApplicationService.Removed | server/src/application/application.service.ts:311-322 | Removing sets the state to Deleted and changes nothing else. |
| ApplicationService.WithState | server/src/application/application.service.ts:275-286 | Only the state changes, to the requested one. |
| ApplicationService.UpdatedBundle | server/src/application/application.service.ts:288-309 | As written: the bundle keeps its id and gets the resource built from the request, and its trial flag is removed. |
| ApplicationService.UpdatedBundleWithTier | server/src/application/application.service.ts:288-309 | Corrected: as above, but the bundle records the trial flag the caller determined. |
| ApplicationService.UpdateBundleLosesTrialFlag | server/src/application/application.service.ts:288-309 | A re-bundled trial application no longer carries the trial flag that a newly created one has. The corrected update keeps it. |
| ApplicationService.RemoveIdempotent | server/src/application/application.service.ts:311-322 | Removing twice is removing once. The phase is kept. |
| ApplicationController.TrialRejection | server/src/application/application.controller.ts:86-98 | A trial request is refused iff the user already has at least the limit's number of trial applications. A missing limit counts as 0. The message names the limit. |
| ApplicationController.CreateRejection | server/src/application/application.controller.ts:70-111 | `create` refuses nothing iff the region and the runtime exist, a trial is within its quota, at most 20 applications exist, and a non-trial account has a balance that is not negative. |
| ApplicationController.Create | server/src/application/application.controller.ts:67-118 | A refusal is answered with its message, and no id is generated. Once every check passes, a failed id generation is the thrown error. Otherwise the reply is the application read back under the generated id. |
| ApplicationController.CreateApplication | server/src/application/application.controller.ts:101-118 | The id is generated only after every check passed. A thrown `Generate appid failed` means all ten candidates were taken. A created application's id was not taken. |
| ApplicationController.CreateCheckOrder | server/src/application/application.controller.ts:70-111 | Each refusal happens iff every earlier check passed and its own check failed: region, runtime, trial quota, count, balance. The trial message is the quota check's own message. |
| ApplicationController.CreateEdgeCases | server/src/application/application.controller.ts:92-109 | Without a trial bundle every trial is refused with limit 0. Exactly 20 applications and no account is still accepted. A trial is never refused for balance. |
| ApplicationController.UpdateStateRejection | server/src/application/application.controller.ts:221-259 | A state change is accepted iff the balance is not negative and the transition rule for the target holds. |
| ApplicationController.UpdateState | server/src/application/application.controller.ts:213-263 | The reply's error is that rejection, with no data. Otherwise the reply is the application with the target state and every other field unchanged. |
| ApplicationController.BalanceFirst | server/src/application/application.controller.ts:221-226 | A negative balance refuses every change with the balance message, before any transition rule. |
| ApplicationController.TransitionRules | server/src/application/application.controller.ts:228-259 | Restart and stop are refused iff the state is not Running and the phase is not Started. Start is refused iff neither the state nor the phase is Stopped. Other targets are never refused by the rules. |
| ApplicationController.UpdateBundle | server/src/application/application.controller.ts:272-311 | The error is the trial rejection, with no data. Otherwise the reply is the bundle updated with the trial flag. A restart follows iff the update is accepted, the phase is Started, and the requested CPU or memory differs from the old limits. |
| ApplicationController.RestartIffLimitsChange | server/src/application/application.controller.ts:281-308 | For trial and other re-bundles alike, a restart follows iff the trial check passes, the phase is Started, and the requested CPU or memory differs from the old limits. |
| ApplicationController.Delete | server/src/application/application.controller.ts:320-333 | The delete is refused iff neither the state nor the phase is Stopped, with the fixed message and no data. Otherwise the reply is the removed application. |
| ApplicationController.DeleteRules | server/src/application/application.controller.ts:323-331 | A running, started application cannot be deleted. An application stopped in state or in phase becomes Deleted and keeps everything else. |
| Getter.GetApplicationNamespace | server/src/utils/getter.ts:9-21 | Fixed mode gives the fixed name. AppId mode gives the id behind the prefix, or behind nothing when there is no prefix. Any other mode, or no configuration, gives the id itself. |
| Getter.FirstIndex | server/src/utils/getter.ts:26-30 | The index found is the first condition of the type. No index means no condition has the type. |
| Getter.IsConditionTrue | server/src/utils/getter.ts:23-32 | True iff conditions are present, one has the type, and the first such condition has status `True`. |
| Getter.ConditionFirstMatch | server/src/utils/getter.ts:23-32 | `isConditionTrue` holds iff some condition has the type and the first such condition has status `True`. |
| Getter.ConditionAbsentIsFalse | server/src/utils/getter.ts:24-31 | Missing conditions, or none of the type, give false. |
| Getter.LaterDuplicatesIgnored | server/src/utils/getter.ts:26-30 | Conditions appended after the first match do not change the answer. |
| CreateApplicationDto.Validate | server/src/applications/dto/create-application.dto.ts:10-24 | No message iff name, state, region and bundleName are all truthy. |
| CreateApplicationDto.FirstMissingReported | server/src/applications/dto/create-application.dto.ts:11-22 | A message names the first falsy field, in the order name, state, region, bundleName. Every earlier field is present. |
| CreateApplicationDto.RuntimeNameIgnored | server/src/applications/dto/create-application.dto.ts:8-24 | `runtimeName` does not affect validation. |
| Response.Ok | server/src/utils/response.ts:18-20 | The data is given and the error is null. |
| Response.Error | server/src/utils/response.ts:22-24 | The data is null and the error is given. |
| Response.Build | server/src/utils/response.ts:26-33 | Both parts are as given. |
| Response.ToJSON | server/src/utils/response.ts:39-44 | The JSON form is an object with exactly the fields `error` and `data`, holding the two parts, each null when absent. |
| Response.ValueOf | server/src/utils/response.ts:35-37 | `valueOf` is the JSON form. |
| Response.BuildFromParts | server/src/utils/response.ts:26-33 | An envelope rebuilt from its own parts is the same envelope. |
| Response.OkAndErrorDistinct | server/src/utils/response.ts:18-24 | An `ok` envelope is never an `error` envelope, and each determines its argument. |
| Response.ToJSONOfFactories | server/src/utils/response.ts:18-24 | The JSON form of `ok(d)` is d with a null error. The JSON form of `error(e)` is e with null data. |
| Response.ToJSONKeepsParts | server/src/utils/response.ts:39-44 | Two envelopes with the same JSON form are equal, unless one holds an explicit null as data. |
| FunctionTemplateDto.ItemValidate | server/src/function-template/dto/create-function-template.dto.ts:40-42 | An item's own `validate` never reports an error. |
| FunctionTemplateDto.ItemNameRule | server/src/function-template/dto/create-function-template.dto.ts:22-24 | An item name is valid iff it is a string of 1 to 256 characters from letters, digits, `_`, `.`, `-` and `/`. |
| FunctionTemplateDto.ItemMethodsRule | server/src/function-template/dto/create-function-template.dto.ts:30-32 | The methods may be left out. A given list is valid iff every element is one of the allowed HTTP methods. |
| FunctionTemplateDto.ItemCodeAndDescription | server/src/function-template/dto/create-function-template.dto.ts:26-38 | A valid item has code that is a string of 1 to 524288 characters, and a description that is a string of at most 256. |
| FunctionTemplateDto.TemplateRules | server/src/function-template/dto/create-function-template.dto.ts:45-81 | A valid template has a name of 1 to 64 characters, a description of 8 to 256, a boolean `private` and dependencies that are present. Its items are an array of at most 20, nested-validated as items. |
| FunctionTemplateDto.EmptyItemsAccepted | server/src/function-template/dto/create-function-template.dto.ts:77-81 | Replacing the items of a valid template with an empty array keeps it valid. |
| Dependency.AddSpec | cli/src/action/dependency/index.ts:18-24 | The spec is the target version when one is given, otherwise `latest`. |
| Dependency.DevMapKeys | cli/src/action/dependency/index.ts:47-51 | `devDependencies` has exactly the names on the server's list. |
| Dependency.DevMapLastWins | cli/src/action/dependency/index.ts:49-51 | Each name maps to the spec of its last entry on the list. |
| Dependency.LocalMapKeys | cli/src/action/dependency/index.ts:52-55 | The local object has exactly the names of the entries that are not built in. |
| Dependency.LocalIsSubMap | cli/src/action/dependency/index.ts:47-56 | With distinct names, the local object is a sub-map of `devDependencies`. |
| Dependency.LocalNotSubMapWithDuplicates | cli/src/action/dependency/index.ts:47-56 | With a repeated name the two objects can disagree: the list `[a@1, a@2 built-in]` gives `a` spec 1 locally and spec 2 in `devDependencies`. |
| Dependency.Project.constructor | cli/src/action/dependency/index.ts:40-66 | The project starts with the given files and no requests sent. |
| Dependency.Project.PullOne | cli/src/action/dependency/index.ts:40-66 | Only `devDependencies` of `package.json` is replaced, by the object of all entries. The project file's dependencies become the non-built-in entries iff `updateYaml` holds. No request is sent. |
| Dependency.Project.Pull | cli/src/action/dependency/index.ts:34-38 | `pull` is `pullOne` with the project file updated. |
| Dependency.Project.Push | cli/src/action/dependency/index.ts:68-98 | Exactly one request is appended per local dependency: an add iff the server lacks the name, otherwise an update, with the local spec. Then `package.json` is refreshed and the project file is kept. |
| Dependency.Project.Add | cli/src/action/dependency/index.ts:16-32 | One add request is appended with the chosen spec. Both files are then refreshed from the server's new list. |
| Dependency.ServerNames | cli/src/action/dependency/index.ts:71-75 | The name set is exactly the server list's names. |
| Dependency.CallFor | cli/src/action/dependency/index.ts:79-92 | The request for a local key names that key, carries its local spec, and is an add iff the server lacks the name. |
| Dependency.PushStep | cli/src/action/dependency/index.ts:79-93 | Handling one more key keeps the loop invariant: the sent requests are one per handled key, each well-formed. |
| Dependency.PushDone | cli/src/action/dependency/index.ts:79-93 | Once no key remains there is exactly one request per local key. |
| Dependency.PushCalls | cli/src/action/dependency/index.ts:79-93 | The requests are exactly one per local dependency, with pairwise different names, each an add iff the server lacks the name. |
| CustomSetting.Toggled | web/src/pages/customSetting.ts:150-151 | A toggle writes `flex` iff the display was `none`, and `none` otherwise, including when it was unset. |
| CustomSetting.DefaultLayout | web/src/pages/customSetting.ts:55-145 | The initial layout has the three pages and exactly their listed panels. |
| CustomSetting.CustomSettingStore.constructor | web/src/pages/customSetting.ts:55-145 | The store starts with the default layout. |
| CustomSetting.CustomSettingStore.TogglePanel | web/src/pages/customSetting.ts:147-153 | On a stored panel, the layout becomes the toggled one. On a missing page or panel nothing changes. |
| CustomSetting.CustomSettingStore.SetLayoutInfo | web/src/pages/customSetting.ts:156-166 | On a stored panel, the layout becomes the resized one. On a missing page or panel nothing changes. |
| CustomSetting.CustomSettingStore.GetLayoutInfo | web/src/pages/customSetting.ts:155 | The stored panel is returned iff that page and panel exist. |
| CustomSetting.CustomSettingStore.GetLayoutInfoStyle | web/src/pages/customSetting.ts:154 | The stored panel's style is returned iff the panel exists. |
| CustomSetting.ToggleIsLocal | web/src/pages/customSetting.ts:147-153 | A toggle writes only `display` of the one panel, as `Toggled` says. Every other style property, every other panel and every other page are unchanged. |
| CustomSetting.ToggleTwice | web/src/pages/customSetting.ts:150-151 | Toggling twice restores `none` or `flex`. Any other display, unset included, ends as `flex`. |
| CustomSetting.HiddenPanelKeepsLayout | web/src/pages/customSetting.ts:158-159 | Resizing a hidden panel changes nothing. |
| CustomSetting.ResizeIsLocal | web/src/pages/customSetting.ts:156-166 | A visible panel gets exactly one property written: the width when its width is truthy, otherwise the height. Its display, its other properties and every other panel and page are unchanged. |
| CustomSetting.ResizeKeepsDisplay | web/src/pages/customSetting.ts:156-166 | Resizing never changes a panel's display. |
| CustomSetting.ZeroWidthResizesHeight | web/src/pages/customSetting.ts:160-164 | A zero width is falsy, so the height is written and the width stays 0. |
| SiteSetting.SiteSettingStore.constructor | web/src/pages/siteSetting.ts:22 | The store starts with no settings. |
| SiteSetting.SiteSettingStore.GetSiteSettings | web/src/pages/siteSetting.ts:23-35 | The stored settings become the keyed object of the fetched list. |
| SiteSetting.KeyedKeys | web/src/pages/siteSetting.ts:27-33 | The keyed object has exactly the keys of the list. |
| SiteSetting.KeyedLastWins | web/src/pages/siteSetting.ts:28-30 | Each key maps to the last element that carries it. |
| SiteSetting.KeyedValuesFromList | web/src/pages/siteSetting.ts:28-30 | Every stored value is an element of the list, with no later element of the same key, stored under its own key. |
| SiteSetting.EmptyListGivesEmptyObject | web/src/pages/siteSetting.ts:32 | An empty list gives an empty object. |
| SiteSetting.ReplacedWholesale | web/src/pages/siteSetting.ts:25-34 | Whatever two stores held before, they hold the same settings after fetching the same list: the old settings are replaced, not merged. |
| ViteConfig.DirIncludesName | web/vite.config.ts:55-56 | An id that contains `node_modules/` contains `node_modules`. |
| ViteConfig.Outcomes | web/vite.config.ts:54-58 | No chunk iff the id lacks `node_modules`. An error iff it has `node_modules` but never `node_modules/`. A chunk iff it has `node_modules/`. |
| ViteConfig.ChunkIsFirstSegmentPrefix | web/vite.config.ts:56 | A chunk name has no slash, and it is a prefix of the text after the first `node_modules/`. A later `node_modules` does not decide it. |
| ViteConfig.SplitPrefix | web/vite.config.ts:56 | The first piece of a split is a prefix of the string. |
| ViteConfig.PackageChunk | web/vite.config.ts:56 | After the first `node_modules/`, `name/rest` gives the chunk `name` when the name has no slash. So `@scope/pkg` goes to the chunk `@scope`. |
| ViteConfig.ChunkOfRest | web/vite.config.ts:56 | The chunk is the first slash-separated piece of the text between the first `node_modules/` and the next one. |
| PhoneController.SendCode | server/src/auth/phone/phone.controller.ts:32-41 | The reply is the service's error when it reports a non-empty one, otherwise `ok('success')`. |
| PhoneController.SignIn | server/src/auth/phone/phone.controller.ts:49-57 | A rejected code is answered with its own message, and nobody is signed up. |
| PhoneController.CodeErrorFirst | server/src/auth/phone/phone.controller.ts:52-57 | When the code is rejected, the outcome is the same whatever the user lookup, provider and signup do. It is an error with no signup. |
| PhoneController.ValidatedForSignin | server/src/auth/phone/phone.controller.ts:52-56 | Only the validation verdict for the phone and code with the sign-in purpose matters. |
| PhoneController.ExistingUserSignsIn | server/src/auth/phone/phone.controller.ts:60-64 | A known phone signs in its user without signup, whatever the provider settings. |
| PhoneController.RegisterRefusedIff | server/src/auth/phone/phone.controller.ts:67-70 | For an unknown phone, registration is refused iff the provider's `register` is the boolean false. |
| PhoneController.UsernameRequired | server/src/auth/phone/phone.controller.ts:73-81 | When the provider requires a username and the username or password is missing or empty, the reply is the fixed error and there is no signup. |
| PhoneController.SignupRule | server/src/auth/phone/phone.controller.ts:67-86 | A signup happens iff the code is accepted, the phone is unknown, registration is allowed and no required username or password is missing. It asks for a username iff the provider requires one. The reply is the new user's sign-in. |
| PhoneController.EmptyErrorIsSuccess | server/src/auth/phone/phone.controller.ts:37-40 | An empty error message from the SMS service counts as success. |
| AuthenticationController.BindPhone | server/src/authentication/authentication.controller.ts:52-72 | The phone of the requesting user is updated iff the code is accepted for binding and no account has that phone. The update is that single field, and nothing is returned. Otherwise the reply is the code's error or `phone already been bound`. |
| AuthenticationController.BindUsername | server/src/authentication/authentication.controller.ts:81-104 | The same for the username: the code is checked against the phone, and uniqueness against the username. |
| AuthenticationController.Pat2Token | server/src/authentication/authentication.controller.ts:114-121 | The reply is `invalid pat` iff the derived token is null or empty, otherwise `ok(token)`. |
| AuthenticationController.CodeErrorStopsBinding | server/src/authentication/authentication.controller.ts:55-92 | A rejected code ends both bind endpoints before the lookup: no update, and the outcome is the same whichever accounts exist. |
| AuthenticationController.BindUsernameLooksUpUsername | server/src/authentication/authentication.controller.ts:94-100 | `bindUsername` consults the lookup only for the username. |
| AuthenticationController.BindValidatesPhoneCode | server/src/authentication/authentication.controller.ts:55-89 | Both endpoints depend only on the binding verdict for the phone and code. |
| WebSocket.WebSocketServer.constructor | runtimes/nodejs/src/support/ws.ts:13-22 | A new server has no listeners. |
| JsString.NumberToStringRoundTrip | runtimes/nodejs/src/handler/invoke.ts:100-106 | The decimal text of an integer reads back as that integer. |
| JsString.NumberToStringInjective | runtimes/nodejs/src/handler/invoke.ts:192 | Different integers get different text, so the time header determines the time usage. |
| JsString.ToUpperAscii | runtimes/nodejs/src/handler/invoke.ts:71 | Upper-casing keeps the length and capitalises each lower-case ASCII letter. |
| JsString.ToUpperIdempotent | runtimes/nodejs/src/support/engine/console.ts:106 | Upper-casing twice is upper-casing once. |
| JsString.PadStart | runtimes/nodejs/src/support/engine/console.ts:23 | The padded text has at least the given width and ends with the original text. It is preceded only by the pad character. |
| JsString.IndexOf | web/vite.config.ts:55-56 | The index found is the first occurrence. No index means no occurrence. |
| JsString.Split | web/vite.config.ts:56 | A split always has at least one piece. |
| JsString.SplitJoin | web/vite.config.ts:56 | Joining the pieces of a split with the separator restores the string. |
| JsString.SplitPiecesFree | web/vite.config.ts:56 | No piece of a split contains the separator. |
| JsString.SplitManyIffIncludes | web/vite.config.ts:55-56 | A split has a second piece iff the separator occurs. |
| JsString.SplitFirstPiece | web/vite.config.ts:56 | The first piece ends at the first occurrence. The remaining pieces are the split of the text after it. |
| JsString.SplitSecondPiece | web/vite.config.ts:56 | When the separator occurs, the second piece is the first piece of the text after the first occurrence. |
| Js.BoolLooselyEqualsFalse | runtimes/nodejs/src/handler/invoke.ts:92-98 | On booleans, loose equality with false is negation. |
| Js.LooseFalseDiffersFromFalsy | runtimes/nodejs/src/handler/invoke.ts:92-98 | `"0"` and `[]` are truthy, yet loosely equal false. Null and undefined are falsy, yet do not. |
| Js.FalsyPrimitiveEqualsFalse | runtimes/nodejs/src/handler/invoke.ts:92-98 | Every falsy value other than null and undefined loosely equals false. |
| Js.ZeroStringIsZero | runtimes/nodejs/src/handler/invoke.ts:92-98 | The string `"0"` converts to the number zero. |
| JsonStrings.StringifyRoundTrip | runtimes/nodejs/src/support/engine/console.ts:125-127 | Parsing the serialised log buffer gives back the same lines in the same order. |
| JsonStrings.StringifyInjective | runtimes/nodejs/src/support/engine/console.ts:125-127 | Different buffers serialise to different text. |

## Left out

- I/O and services: the HTTP server, MongoDB, Kubernetes, the SMS gateway and the file system do not appear. What the code reads from them is a parameter. What it writes is returned or stored in a class field.
- Token parsing, JWT verification, gzip, base64, `decodeURIComponent`, `encodeURIComponent`, `JSON.parse` of payloads and `util.inspect` are parameters. So are the clock, the UUID source and nanoid's random source. None of them is modelled.
- The function execution engine is not part of this model. The executor is a parameter that returns data, an error and a time usage, or throws. Whether the interceptor runs the target function happens inside it and is not modelled.
- Concurrency: the `await` points, the order of websocket events on one socket, and concurrent debug sessions are not modelled. Each call runs to completion.
- Floating point: numbers are integers. The bundle resource uses integer division, which gives the same results as the source's `Math.floor` of products for non-negative integer inputs. `Number.prototype.toString` is the plain decimal form, so the exponent form from 1e21 on is not modelled. The time usage is an integer.
- Express details left out: setting headers after the response has ended, and the status codes Express adds on its own.
- Console: chalk colours (`_colorize`) are not modelled. The timestamp is a parameter, and parameters are rendered by the given `inspect`.
- Invoke.InvokeFunction: the process-log lines the normal path writes, `logger.error` of the result's error (runtimes/nodejs/src/handler/invoke.ts:84) and of a thrown error with the request id (invoke.ts:108), are not modelled; the outcome holds only the reply, the headers and the call.
- JsString.ToUpperAscii: JavaScript's `toUpperCase` maps all of Unicode (`ı` becomes `I`, `ß` becomes `SS`). The model capitalises only ASCII letters. So Console.ConfigRank, and with it Console.ConfiguredThreshold, gives rank 0 to a `LOG_LEVEL` such as `ınfo`, which the source reads as INFO. The method gates of Invoke.MethodGate and InvokeFunc.MethodGate compare a non-ASCII method the same way.
- The constants module of the runtime is not part of this model. The interceptor and websocket function names are assumed to be `__interceptor__` and `__websocket__`. `__default__` is the name written in invoke-func.ts. `HTTP_METHODS` of the server is a parameter.
- The `isObject` helper of the runtime is not part of this model. It is taken as "is a JSON object".
- Response.ToJSON: `toString` (`JSON.stringify` of an envelope with arbitrary data) is not modelled.
- ApplicationService: the Mongo transactions of `create`, `updateState`, `updateBundle` and `remove` are modelled only as the records they write. The aggregation queries are not modelled.
- ApplicationController.Create: `new ObjectId(dto.regionId)` and `new ObjectId(dto.runtimeId)` throw on an id that is not a valid object id. This throw, which the framework answers with 500, is not modelled: the region and runtime lookups are given only as found or not found. An uncaught error in general is the `Err` result, not a status code.
- ApplicationService.GenerateAppID: nanoid's uniform distribution is not modelled. The random source is a parameter and only the alphabet and length are stated.
- ApplicationController: `isTrialBundle`, the trial-bundle lookup, the application count and the account lookup are given as facts rather than queries. The other endpoints of the controller (list, find one, update name) only query or write through the service and are not modelled.
- FunctionTemplateDto: the dependency and environment DTO classes are not part of this model. Their rules are parameters. `@IsNotEmpty()` rejects only `''`, null and undefined, so an empty array passes it; the model keeps that. FunctionTemplateDto.MaxLength and FunctionTemplateDto.MinLength count every character, whereas class-validator's length check does not count the variation selectors U+FE0E and U+FE0F, so a name, description or code holding them is measured longer here than there.
- Dependency: the order in which `push` visits the local keys is JavaScript's key order. The model visits them in an arbitrary order and states the set of requests, not their order. The console messages and `waitApplicationState` are left out.
- CustomSetting and SiteSetting: zustand's `persist`, `devtools` and `immer` middleware and local storage are not modelled. `PanelMinHeight` from the web constants is a parameter. A missing page or panel makes the store's callback throw, which leaves the state unchanged; the model reports it as `found == false`, and the getters return None instead of throwing.
- SiteSetting: `TSetting` is a key with a field map. A key such as `__proto__` is treated as an ordinary key, though JavaScript treats it specially. The fetch is a parameter.
- ViteConfig: the `TypeError` raised on an id that contains `node_modules` without the following slash is the result `Throws`.
- PhoneController and AuthenticationController: the enum values of `SmsVerifyCodeType` and `AuthBindingType` are abstract constructors. A provider without a `bind` object, and a phone provider that `getProvider('phone')` does not find (server/src/auth/phone/phone.controller.ts:67-68, where `provider.register` is read from null), throw a `TypeError` in the source, which is not modelled; PhoneController.SignIn takes the provider as present. `getProviders` and `getProfile` only wrap a service result in `ok` and are not modelled.
- The remaining files of the repository are outside this model: UI components, the Kubernetes and Prisma services, the function and bucket controllers, the configuration and wiring.

## Findings

| source | as written | input that shows it | evidently intended | confidence | as-written member | corrected member |
|---|---|---|---|---|---|---|
| server/src/application/application.service.ts:288-309 | `updateBundle(appid, dto)` takes no trial flag and unsets `isTrialTier`. The controller passes the flag it computed, at application.controller.ts:297, and the service ignores it. | re-bundling any trial application to a trial bundle: the new bundle has no trial flag, though a new trial application's bundle has one | the bundle records the trial flag the controller determined, as `create` does | medium, not executed | ApplicationService.UpdatedBundle, ApplicationService.UpdateBundleLosesTrialFlag | ApplicationService.UpdatedBundleWithTier, used by ApplicationController.UpdateBundle |
