# Weaviate broker: the authorization bridge

The Weaviate broker is an MQTT broker that asks a Weaviate instance for permission before it lets a client connect, subscribe or publish. This project models that bridge in Dafny and proves properties of the model. The bridge is made of the three hooks `authenticate`, `authorizeSubscribe` and `authorizePublish` in `weaviate-broker.js`. Each hook reads and updates one record per client, `client.CONNECTEDCLIENTS`. That record holds the user name, the password and `accessTo`, a dictionary from topic to `true` or `false`. The model also covers the option defaults, the protocol check and the level dispatch of `Log`.

The permission service is replaced by an input: `Status(code)` when it answers, or `TransportError` when the request emits `'error'`. Each hook then becomes one step from (record, request, answer) to (new record, request sent, outcome). The step functions in module `Hooks` are the specification. The classes in module `Sessions` are the imperative form, proved against those functions:
- `Client.session` is `client.CONNECTEDCLIENTS`.
- The hooks overwrite the fields of `Session` in place.
- A ghost log, `sent`, records every request handed to `HTTP.get`. Its length is the number of remote calls.

Module `Traces` runs any sequence of hook calls and proves what holds across the whole sequence.

The model follows the code where it differs from a careful design of such a bridge:
- **One shared map.** There is one `accessTo` map. A topic that a subscribe was allowed can then be published without a remote call.
- **Subscribe always asks.** The subscribe hook never reads the map, so every subscribe makes exactly one remote call.
- **Only `true` is trusted.** The publish hook treats only a recorded `true` as a hit. An absent entry and a `false` entry both lead to a remote call.
- **Login drops `accessTo`.** A successful connect replaces the whole record with `{username, password}`, so `accessTo` is gone. The next hook recreates it as `{}`, at line 254 or 280.
- **Failed connects store no credentials.** A connect that fails leaves the record as it was. If the client had no record, it gets the placeholder `{username: "", password: "", accessTo: ""}`.
- **Refused publish throws.** When the service refuses a publish, line 307 reads the undeclared variable `sub`. That throws a `ReferenceError` before line 308 can record `false`. The model gives the outcome `Threw(ReferenceError)` and leaves `accessTo` as it was. Nothing catches that exception, so in the source the first refused publish ends the broker process. If the process survived, a refused topic would be asked about again on every publish (`Traces.RefusedPublishAsksEveryTime`).
- **Writing into the placeholder throws.** The placeholder's `accessTo` is the string `""`, and line 254 keeps it because it is not `undefined`. Under `'use strict'` (line 1), writing a topic onto that string throws a `TypeError`. The model gives the outcome `Threw(TypeError)`.
- **No record, no request.** If a client has no record, the subscribe and publish hooks throw a `TypeError` before sending anything.
- **Caller-supplied answers.** There is no timeout and no merging of identical checks. Every call is handled on its own, with the answer the caller supplies.
- **No separator in the path.** The request path is the URL option followed directly by the topic. With the default URL, topic `sensors` goes to `/weaviate/v1sensors`. The option's help text (line 76) documents the default as `/weaviate/v1/`, with a trailing slash, so the intended path is evidently `/weaviate/v1/sensors`. Line 130 sets `/weaviate/v1`, and the model follows line 130. The topic `/keys/me` goes to the authentication endpoint (`Requests.KeysMeTopicIsAuthRequest`).
- **Debug needs a spelling of one.** `Log` writes a level-3 message only when `OPTIONS.debug == true` under JavaScript's loose equality. `debug` is a string option, so the text `"true"` does not enable debug output (`Logging.DebugTextTrueStaysSilent`). Only a spelling of the number one, such as `"1"`, does (`JsValues.OneTextIsLooselyTrue`).

On success the connect hook calls back with `username === username`, which is always `true`. The model records this as `Granted`. Refusals carry the error's message and its `returnCode`. The connect hook's refusals carry 4. Its transport error carries none.

## Model

| member | source | states |
|---|---|---|
| `JsValues.NatToDecimal` | weaviate-broker.js:203 | Turning a safe integer (below 2^53) into text for `+` gives a non-empty string of decimal digits with no leading zero. |
| `JsValues.DecimalRoundTrip` | weaviate-broker.js:203 | Reading that text back as a decimal number gives the original number. |
| `JsValues.LooselyTrue` | weaviate-broker.js:43 | `v == true` under loose equality: only truthy values qualify, `undefined` and `null` never do, a boolean qualifies exactly when it is `true`, and a number exactly when it is 1. |
| `JsValues.OneTextIsLooselyTrue` | weaviate-broker.js:43 | The text `"1"` is loosely equal to `true`. |
| `JsValues.TextLooselyTrueHasDigitOne` | weaviate-broker.js:43 | A text value written as a plain decimal numeral is loosely equal to `true` only if it contains the digit 1. |
| `Settings.Defaulted` | weaviate-broker.js:128-134 | Every option that is undefined gets its default: `localhost`, 80, `/weaviate/v1`, `false`, `https`, 1883 or 8888. Every other option, including `null`, keeps its value. `help`, `mqtt` and `websockets` get no default. |
| `Settings.DefaultedDefinesAndKeeps` | weaviate-broker.js:128-134 | After defaulting, no option that has a default is undefined. No option that was set changes, and an option set to `null` stays `null`. |
| `Settings.DefaultedIdempotent` | weaviate-broker.js:128-134 | Applying the defaults a second time changes nothing. |
| `Settings.Options.SetDefaults` | weaviate-broker.js:128-134 | Overwriting the option object's fields one at a time leaves exactly the defaulted record. |
| `Settings.ProtocolAccepted` | weaviate-broker.js:150-153 | The loose-inequality test accepts a protocol exactly when it is the string `http` or the string `https`. |
| `Settings.WantsUsage` | weaviate-broker.js:106 | `&&` binds tighter than `||`: a truthy `help` takes the usage branch even when a listener is given. Without it, the usage branch is taken exactly when neither `mqtt` nor `websockets` is given. |
| `Settings.Start` | weaviate-broker.js:106-153 | Start-up takes the usage branch exactly when `help` is truthy or neither listener option is given. It stops with an invalid protocol exactly when a protocol other than `http` or `https` is given. Otherwise the broker runs with the defaulted options, whose protocol is accepted. |
| `Logging.Log` | weaviate-broker.js:32-47 | A line is written unless the level is 3 and debug is not loosely `true`. The line is timestamp, label, message. Level 2 and only level 2 goes to `console.error`. Level 3 and only level 3 goes to `console.debug`. |
| `Logging.LogLineCarriesMessage` | weaviate-broker.js:38-47 | Every written line ends with the message, right after the timestamp and the label. |
| `Logging.DebugTextTrueStaysSilent` | weaviate-broker.js:42-44 | With the debug option given as the text `"true"`, no debug message is ever written. |
| `Requests.Headers` | weaviate-broker.js:205-210 | A request has exactly four headers. `X-API-TOKEN` carries the user name, `X-API-KEY` the password, and `Accept` and `Content-Type` are `application/json`. |
| `Requests.AuthRequest` | weaviate-broker.js:200-210 | The authentication request goes to the configured host and port, at the URL followed directly by `/keys/me`, with the four headers carrying the given user name as token and password as key. |
| `Requests.TopicRequest` | weaviate-broker.js:240-250 | A topic request goes to the configured host and port, at the URL followed directly by the topic, with the four headers carrying the stored user name and password. |
| `Requests.ResourcePath` | weaviate-broker.js:203 | The path is the URL option as text, followed directly by the resource. The URL can be split off again. |
| `Requests.ResourcePathInjective` | weaviate-broker.js:243 | Under one URL, two topics with the same path are the same topic. |
| `Requests.KeysMeTopicIsAuthRequest` | weaviate-broker.js:200-250 | The topic request for `/keys/me` is identical to the authentication request made with the same credentials. |
| `Requests.DefaultUrlHasNoSeparator` | weaviate-broker.js:130 | With the default URL, the topic is appended to `/weaviate/v1` with nothing between them. |
| `Hooks.Materialized` | weaviate-broker.js:254 | Creating the missing `accessTo` turns an undefined member into a dictionary, keeps an existing dictionary as it is, keeps the placeholder string as a string, and changes no topic's decision. |
| `Hooks.AuthenticateStep` | weaviate-broker.js:181-232 | If a credential is undefined: refused with code 4, no request, and only the placeholder stored. Otherwise exactly one request to `url + "/keys/me"`, carrying the given credentials. Granted exactly on status 200, and then the record is exactly `{username, password}`. Any other status: refused with the message "Auth error" and code 4. A transport error: refused with no code. Every failure leaves the record as it was. |
| `Hooks.SubscribeStep` | weaviate-broker.js:237-272 | No record: `TypeError`, no request. Otherwise exactly one request with the stored credentials, whatever `accessTo` holds. A status records `true` for 200 and `false` otherwise, and grants exactly on 200. A transport error changes nothing. The placeholder string gives a `TypeError`. No other topic's decision changes and the credentials stay. |
| `Hooks.PublishStep` | weaviate-broker.js:277-316 | A recorded `true`: granted with no request and no change. An absent or `false` entry: exactly one request. Status 200 records `true` and grants. Any other status gives a `ReferenceError` and records nothing. Status 200 on the placeholder's string gives a `TypeError` and keeps the placeholder. A transport error is refused. Every outcome other than a grant keeps the record, with `accessTo` created if it was undefined. Only the topic's own decision can change, and only when granted. |
| `Hooks.SubscribeGrantServesPublish` | weaviate-broker.js:259-284 | After a granted subscribe, a publish to the same topic is granted without a request, whatever the service would answer. |
| `Hooks.SubscribeAlwaysAsks` | weaviate-broker.js:237-266 | A subscribe asks even when the topic is recorded as allowed, and a refusal then overwrites the `true` with `false`. |
| `Hooks.FreshLoginForgetsDecisions` | weaviate-broker.js:212-219 | After a successful connect no topic has a decision, so the next publish makes a request. |
| `Sessions.Client.Authenticate` | weaviate-broker.js:181-232 | The connect hook on the client object. The new record, the outcome and the requests sent are those of `AuthenticateStep`. A replaced record is a new object, and the object it replaced is left unchanged. |
| `Sessions.Client.AuthorizeSubscribe` | weaviate-broker.js:237-272 | The subscribe hook updates the record object in place as `SubscribeStep` says. The record object stays the same. |
| `Sessions.Client.AuthorizePublish` | weaviate-broker.js:277-316 | The publish hook updates the record object in place as `PublishStep` says. The record object stays the same. |
| `Traces.Run` | weaviate-broker.js:181-316 | A sequence of hook calls gives one outcome per call and at most one request per call. A `Threw` outcome does not stop the sequence: the later calls are those of a process that survived the exception. |
| `Traces.CredentialsKept` | weaviate-broker.js:237-316 | Across any subscribes and publishes, the user name and password stay. Every request sent carries them in its headers. |
| `Traces.GrantedTopicNeedsNoRequest` | weaviate-broker.js:277-304 | A topic recorded as allowed stays allowed across publishes and other topics' subscribes. Every publish to it is granted and no request asks about it. |
| `Traces.EverySubscribeAsks` | weaviate-broker.js:237-270 | n subscribes make exactly n requests. |
| `Traces.TransportErrorsRecordNothing` | weaviate-broker.js:237-316 | Connects, subscribes and publishes that cannot reach the service leave every topic's decision as it was. |
| `Traces.PublishRecordsNoRefusal` | weaviate-broker.js:305-310 | Publishes alone never record a `false`. |
| `Traces.RefusedPublishAsksEveryTime` | weaviate-broker.js:283-310 | If the process survived each `ReferenceError`, publishing n times to a topic the service refuses would make n requests, each ending in a `ReferenceError`. In the source the first one ends the process. |
| `Scenarios.SharedWithinClientOnly` | weaviate-broker.js:181-316 | A client that subscribed can publish to the topic while the service is unreachable. A second client with the same credentials cannot. |
| `Scenarios.RefusedPublishRepeats` | weaviate-broker.js:299-310 | The first refused publish ends in a `ReferenceError`, which in the source ends the process. If the process survived it, a second refused publish would ask again and end the same way, because the first refusal is not remembered. |
| `Scenarios.MissingPasswordRefused` | weaviate-broker.js:184-197 | A connect without a password is refused with code 4, even when the service would accept the user. |

## Left out

- The MQTT and websocket listeners and the `aedes` wiring (lines 18-23, 159-176) are transport plumbing over libraries outside this model.
- `HTTP.get` itself is left out. The request is a value, and the response is an input: its status code, or a transport error. The response body is never read. Node's `http.get` can also throw synchronously, inside the hook and before any request goes out: for a path with a character outside U+0021 to U+00FF (a topic with a space, say) and for a header value with a control character or a character outside Latin-1 (a user name with a newline or a CJK character, say). Such topics and credentials are not modelled. For them the hook throws where `Hooks.AuthenticateStep`, `Hooks.SubscribeStep`, `Hooks.PublishStep`, `Traces.EverySubscribeAsks` and `Traces.RefusedPublishAsksEveryTime` state that one request is sent.
- Asynchrony is left out. Each hook is one atomic step. In particular, line 215 calls the callback before line 216 stores the new record. An event the broker handles in between would still see the old record, and the model does not capture that.
- What Node does after an exception escapes a hook or a response handler is left out. The file installs no handler for uncaught exceptions, so the process normally ends. The step functions report `Threw`. `Traces.Run` and the methods in `Scenarios` carry on with the next call as if the process had survived, so what they state about calls after a `Threw` describes a broker that survived the exception.
- Command-line parsing and usage printing (lines 53-125) are left out, and so is the undefined `optionDefinitions` at line 118, whose `ReferenceError` comes before line 124 prints anything. The parsed option record is an input.
- `process.exit` (line 125) and `exit(1)` (line 152) become the start-up outcomes `ShowUsage` and `InvalidProtocol`. `exit` is not declared, so in the source the process actually stops through an uncaught `ReferenceError`.
- Console output and the `Date` timestamp (line 35) are left out. The formatted time is a parameter of `Log`. The lifecycle event handlers (lines 321-355) only log, so they are left out too.
- `JsValues.TextLooselyTrueHasDigitOne` holds for the model's `LooselyTrue` only. In JavaScript a numeral that rounds to one, such as `"0.99999999999999995"`, is also loosely `true` without containing the digit 1.
- `JsValues.NatToDecimal` and the number case of `ToJsString` serve only a numeric `weaviateUrl`, which the command line never produces: the option is declared `type: String` (lines 73-76). They are exact for safe integers only: above 2^53 JavaScript rounds the number before writing it, and `Num` holds integers no JavaScript number can. They also leave out the exponent form, such as `1e+21`, that `+` writes for numbers of 10^21 and above.
- `JsValues.LooselyTrue` matches JavaScript only for plain decimal spellings of one, optionally surrounded by white space. JavaScript also accepts spellings with exponents, hexadecimal, binary or octal spellings, and spellings that round to one in floating point. Those are not modelled.
- Numbers are integers in the model. `NaN` and fractional option values are not modelled.
- The password, which the broker library passes as a byte buffer, is modelled as a string.
- Topics that name properties inherited by every JavaScript object are modelled as ordinary keys. For example, assigning to `__proto__` is silently ignored in JavaScript, so a grant for that topic is never actually recorded.
