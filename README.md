# WebView event bridge of the Datadog iOS SDK, in Dafny

This project models how the SDK's WebView tracking attaches to a web view's
user-content controller and how it routes the messages the browser SDK posts
from JavaScript. It has three parts.

- **The content controller** (`content_controller.dfy`). This is the tests'
  `DDUserContentController`: a class with a `seq` of user scripts and a `seq` of
  (name, handler) pairs. `Add` appends one pair. `RemoveScriptMessageHandler`
  reassigns the list to the pairs whose name differs, keeping their order.
  The controller's `hash` is a constant identity.
- **The enable/disable lifecycle** (`tracking.dfy`).
  - `Enable` on an untracked controller registers the bridge handler under
    `"DatadogEventBridge"`. The handler's logs sampler carries the given rate.
    `Enable` then calls the host sanitizer once, with the fixed warning text, and
    injects one script.
  - `Enable` on a tracked controller only logs the fixed duplicate-call warning.
  - `Disable` removes the handler by name and keeps every script that is not
    Datadog's, in order.
  - Each method is proved against a function of the old state
    (`EnableEffect`, `DisableEffect`). The lemmas are proved about those
    functions. The sanitizer and the logger are modelled in every scenario
    by recording mocks after the tests' `HostsSanitizerMock` and `CoreLoggerMock`, also
    where a test leaves the defaults in place.
- **Message routing** (`messages.dfy`, `handler.dfy`). A posted body is an
  abstract JSON value (`json.dfy`). `Decode` turns it into `Log(event)`,
  `Rum(event)` or `Record(WebViewRecord(view, slotId, event))`, or into nothing.
  The handler passes logs through the logs sampler and forwards at most one
  message. A record's `slotId` is the decimal numeral of the receiving
  controller's `hash` (`decimal.dfy`).

`tracking_tests.dfy` restates the six scenarios of `WebViewTrackingTests` as
methods. Each method builds its own objects and returns what the test asserts.

Modelling choices:
- **Duplicate-enable guard.** A controller counts as tracked when one of its
  user scripts starts with the bridge's JavaScript prefix
  `/* DatadogEventBridge */`. The implementation file is not part of this
  model, so the prefix text is the model's choice. The tests only fix the
  observable counts.
  - The guard reads the scripts, not the handler list. The registration
    itself lives in the handler list, under `"DatadogEventBridge"`.
  - `enable` and `disable` keep the two in agreement: the controller carries
    the injected script exactly when it carries the reserved handler
    (`EnableKeepsGuardMatchingRegistration`, `DisableMakesGuardMatchRegistration`).
  - An app that clears the scripts of an enabled controller breaks that
    agreement. The next `enable` then registers a second handler under the
    reserved name (`ClearedScriptsLetEnableRegisterTwice`).
- **Sanitizer calls.** The sanitizer is consulted only when the bridge is
  actually installed, so exactly once per `enable` on an untracked
  controller. The repeated-enable
  scenario promises only "at least once", as the test asserts
  (`WebViewTrackingTests.swift:94`).
- **Event types.** `"log"` and `"record"` are recognised. Every other *string*
  event type is forwarded as RUM, unchanged: the RUM sub-types are not listed
  anywhere in the tests, so none is singled out. Nothing is forwarded in
  these cases:
  - the body is not an object;
  - `eventType` is not a string;
  - `event` is not an object;
  - a record has no `view` object with a string `id`.
- **Sampling.** The logs sampler's random draw is a parameter in [0, 100). A
  log is admitted when the draw is below the rate, so rate 100 admits every log.

## Model

| member | source | states |
|---|---|---|
| `ContentController.UserContentController.Add` | DatadogWebViewTracking/Tests/WebViewTrackingTests.swift:19-21 | exactly one (name, handler) pair is appended at the end; scripts unchanged |
| `ContentController.UserContentController.AddUserScript` | DatadogWebViewTracking/Tests/WebViewTrackingTests.swift:124 | exactly one script is appended at the end; handlers unchanged |
| `ContentController.UserContentController.RemoveAllUserScripts` | DatadogWebViewTracking/Tests/WebViewTrackingTests.swift:131-133 | the script list becomes empty; handlers unchanged |
| `ContentController.UserContentController.RemoveScriptMessageHandler` | DatadogWebViewTracking/Tests/WebViewTrackingTests.swift:23-27 | the new list is the old one filtered by name; no pair under that name is left; exactly the pairs under that name are gone; scripts unchanged |
| `ContentController.RemoveNamedMembers` | DatadogWebViewTracking/Tests/WebViewTrackingTests.swift:23-27 | a pair is kept if and only if it was present under another name |
| `ContentController.RemoveNamedLength` | DatadogWebViewTracking/Tests/WebViewTrackingTests.swift:23-27 | the length drops by exactly the number of pairs registered under the name |
| `ContentController.RemoveNamedAppend` | DatadogWebViewTracking/Tests/WebViewTrackingTests.swift:23-27 | removal distributes over concatenation, so surviving pairs keep their relative order |
| `ContentController.RemoveNamedAbsent` | DatadogWebViewTracking/Tests/WebViewTrackingTests.swift:23-27 | removing a name no pair carries leaves the list identical |
| `ContentController.Names` | DatadogWebViewTracking/Tests/WebViewTrackingTests.swift:60 | the i-th name is the i-th pair's name, same length |
| `WebViewTracking.HostsSanitizerMock.Sanitized` | DatadogWebViewTracking/Tests/WebViewTrackingTests.swift:65-68 | records the call's hosts and warning message, and allows the given hosts |
| `WebViewTracking.CoreLoggerMock.Warn` | DatadogWebViewTracking/Tests/WebViewTrackingTests.swift:99-102 | appends exactly the message to the warning log |
| `WebViewTracking.BridgeScript` | DatadogWebViewTracking/Tests/WebViewTrackingTests.swift:59 | the injected script is recognisable as Datadog's |
| `WebViewTracking.Enable` | DatadogWebViewTracking/Tests/WebViewTrackingTests.swift:51-57 | controller, sanitizer calls and warnings after the call are `EnableEffect` of those before it |
| `WebViewTracking.Disable` | DatadogWebViewTracking/Tests/WebViewTrackingTests.swift:131-134 | the controller afterwards is `DisableEffect` of the controller before |
| `WebViewTracking.Repeat` | DatadogWebViewTracking/Tests/WebViewTrackingTests.swift:101 | `count` copies of the element |
| `WebViewTracking.EnableOnUntracked` | DatadogWebViewTracking/Tests/WebViewTrackingTests.swift:49-68 | on an untracked controller: one more script, earlier entries kept, controller now tracked, names gain exactly `"DatadogEventBridge"`, that handler's sampler has the given rate, one sanitization with the given hosts and the fixed warning text, no warning |
| `WebViewTracking.EnableOnTracked` | DatadogWebViewTracking/Tests/WebViewTrackingTests.swift:80-102 | on a tracked controller: scripts, handlers and sanitizations unchanged, one duplicate-call warning appended |
| `WebViewTracking.EnableRepeatedly` | DatadogWebViewTracking/Tests/WebViewTrackingTests.swift:80-102 | n enables: exactly one more script, names gain only `"DatadogEventBridge"` with the first sampler, at least one sanitization (the first with the given hosts and warning), exactly n-1 duplicate warnings |
| `WebViewTracking.DisableAfterEnable` | DatadogWebViewTracking/Tests/WebViewTrackingTests.swift:117-134 | disable after enable plus app additions gives back the app's scripts and handlers, before and after, in order |
| `WebViewTracking.DisableAfterEnableCounts` | DatadogWebViewTracking/Tests/WebViewTrackingTests.swift:128-134 | with k app scripts and handlers: k+1 of each before disable, exactly the app's k after |
| `WebViewTracking.DisableUnregisters` | DatadogWebViewTracking/Tests/WebViewTrackingTests.swift:131 | after disable: no Datadog script and no handler under the reserved name |
| `WebViewTracking.EnableKeepsGuardMatchingRegistration` | DatadogWebViewTracking/Tests/WebViewTrackingTests.swift:80-92 | if the injected script is present exactly when the reserved handler is, that stays true after `enable` |
| `WebViewTracking.DisableMakesGuardMatchRegistration` | DatadogWebViewTracking/Tests/WebViewTrackingTests.swift:131-134 | after `disable` neither the injected script nor the reserved handler is present |
| `WebViewTracking.ClearedScriptsLetEnableRegisterTwice` | DatadogWebViewTracking/Tests/WebViewTrackingTests.swift:80-92 | clearing the scripts of an enabled controller breaks the agreement, and the next `enable` leaves two reserved handlers |
| `WebViewMessages.ParseEncode` | DatadogWebViewTracking/Tests/WebViewTrackingTests.swift:168-188 | every envelope the web side posts, with or without tags, reads back as it was sent |
| `WebViewMessages.Decode` | DatadogWebViewTracking/Tests/WebViewTrackingTests.swift:141-153 | a forwarded message carries the body's `event` object unchanged; a record carries the receiving slot; the result is a log if and only if the body's `eventType` is `"log"` and its `event` an object |
| `WebViewMessages.DecodeLog` | DatadogWebViewTracking/Tests/WebViewTrackingTests.swift:141-149 | any object body whose `eventType` is `"log"` and whose `event` is an object decodes to a log of that `event` object exactly |
| `WebViewMessages.DecodeRum` | DatadogWebViewTracking/Tests/WebViewTrackingTests.swift:198-200 | any object body with another string `eventType` and an object `event` decodes to RUM with that `event` unchanged, nested `view.id` included |
| `WebViewMessages.DecodeRecord` | DatadogWebViewTracking/Tests/WebViewTrackingTests.swift:287-291 | any object `"record"` body with an object `view` decodes to a record with the view's `id`, the receiver's slot and the raw event; a view without a string `id` gives nothing |
| `WebViewMessages.DecodeNothing` | DatadogWebViewTracking/Tests/WebViewTrackingTests.swift:141-155 | nothing is produced exactly when the body is malformed or a record lacks its view id (both directions) |
| `WebViewMessages.DecodeIgnoresTags` | DatadogWebViewTracking/Tests/WebViewTrackingTests.swift:184-186 | the top-level `tags` member never changes the decoded message |
| `WebViewMessages.DecodeSlotOnlyInRecords` | DatadogWebViewTracking/Tests/WebViewTrackingTests.swift:287-289 | the slot affects only records, and only in their `slotId` |
| `Decimal.IntToStringRoundTrip` | DatadogWebViewTracking/Tests/WebViewTrackingTests.swift:289 | the numeral of the controller's hash reads back as the hash |
| `Decimal.IntToStringInjective` | DatadogWebViewTracking/Tests/WebViewTrackingTests.swift:289 | distinct hashes give distinct numerals |
| `Sampling.FullRateAdmitsAll` | DatadogWebViewTracking/Tests/WebViewTrackingTests.swift:163 | a logs rate of 100 admits every draw |
| `ScriptMessageHandler.SlotId` | DatadogWebViewTracking/Tests/WebViewTrackingTests.swift:289 | the slot is a numeral that parses back to the controller's hash |
| `ScriptMessageHandler.Receive` | DatadogWebViewTracking/Tests/WebViewTrackingTests.swift:159-189 | forwards only what decoding yields, and all of it except a log the sampler rejects |
| `ScriptMessageHandler.MessageReceiverMock.Send` | DatadogWebViewTracking/Tests/WebViewTrackingTests.swift:139-140 | appends exactly the sent message to what the receiver has seen |
| `ScriptMessageHandler.DidReceive` | DatadogWebViewTracking/Tests/WebViewTrackingTests.swift:189 | the receiver gets exactly the messages `Receive` yields for the body on this controller's slot, at most one |
| `ScriptMessageHandler.ReceiveSamplesOnlyLogs` | DatadogWebViewTracking/Tests/WebViewTrackingTests.swift:141-163 | a decoded log is forwarded if and only if the sampler admits it; other messages are forwarded as decoded |
| `ScriptMessageHandler.FullRateForwardsEverything` | DatadogWebViewTracking/Tests/WebViewTrackingTests.swift:159-165 | with rate 100 the handler forwards exactly what decoding yields |
| `ScriptMessageHandler.SlotIdsIdentifyControllers` | DatadogWebViewTracking/Tests/WebViewTrackingTests.swift:289 | controllers of different identity get different slots |
| `ScriptMessageHandler.RecordSlotIsControllerHash` | DatadogWebViewTracking/Tests/WebViewTrackingTests.swift:289 | a forwarded record's slot parses back to the receiving controller's hash |
| `WebViewTrackingTests.TestItAddsUserScriptAndMessageHandler` | DatadogWebViewTracking/Tests/WebViewTrackingTests.swift:45-69 | one script added, names `["DatadogEventBridge"]`, first handler is the bridge with rate 30, exactly one sanitization of `["datadoghq.com"]` with the fixed warning |
| `WebViewTrackingTests.TestEnableMultipleTimes` | DatadogWebViewTracking/Tests/WebViewTrackingTests.swift:71-103 | after `times` enables: one script added, names `["DatadogEventBridge"]`, at least one sanitization whose first is as given, `times - 1` copies of the duplicate warning |
| `WebViewTrackingTests.TestStoppingTrackingKeepsNonDatadogComponents` | DatadogWebViewTracking/Tests/WebViewTrackingTests.swift:105-135 | k+1 scripts and handlers before disable, k after, the remaining scripts being the app's in order |
| `WebViewTrackingTests.WebLogEventFields` | DatadogWebViewTracking/Tests/WebViewTrackingTests.swift:143-148 | the test log event's date, message, status, view, error and session id, and no `tags` field |
| `WebViewTrackingTests.EnableAndPost` | DatadogWebViewTracking/Tests/WebViewTrackingTests.swift:158-189 | after enabling at rate 100, posting a body to the registered handler forwards exactly its decoding |
| `WebViewTrackingTests.TestSendingWebEvents` | DatadogWebViewTracking/Tests/WebViewTrackingTests.swift:137-191 | exactly one message, a log of the posted event |
| `WebViewTrackingTests.TestSendingWebRUMEvent` | DatadogWebViewTracking/Tests/WebViewTrackingTests.swift:193-278 | exactly one RUM message, its event the posted one, nested view id `64308fd4-…` |
| `WebViewTrackingTests.TestSendingWebRecordEvent` | DatadogWebViewTracking/Tests/WebViewTrackingTests.swift:280-322 | exactly one record: view id `64308fd4-…`, slot the controller's hash as a numeral, raw event with its date |

## Left out

- Parsing JSON text. Bodies are taken as already parsed JSON values. Numbers
  are integers only: the bodies in the tests carry no fractions.
- Randomness of the logs sampler. The draw is a parameter.
- Floating point. Swift's `Float` sampling rate and random draw are modelled
  as exact `real` values, so rounding in the comparison is not captured.
- Sampler rate bounds. The sampler stores the rate as given; no [0, 100]
  bound is checked.
- The injected JavaScript beyond its recognisable prefix and the allowed-host
  list. The script's injection time and `forMainFrameOnly` are not modelled.
- Order of hosts. Hosts are a sequence; the Swift `Set` has no defined
  iteration order.
- `WKWebView` and `WKWebViewConfiguration`. `enable(webView:)` and
  `disable(webView:)` are modelled directly on the web view's content
  controller, and their default hosts and rate are parameters. The default
  host sanitizer that `enable(webView:)` installs, and the SDK's default
  logger, are replaced by the recording `HostsSanitizerMock` and
  `CoreLoggerMock` in
  `WebViewTrackingTests.TestStoppingTrackingKeepsNonDatadogComponents`.
- WebKit's own `addUserScript` and `removeAllUserScripts`. They are modelled
  as appending a script and clearing the list.
- The real host sanitizer's validation rules. Its source is not part of this
  model; the tests' recording mock is modelled instead.
- Telemetry messages and context messages on the message bus. The tests do
  not exercise them.
- The SDK core (`PassthroughCoreMock`), the asynchronous expectations, and
  concurrent `enable` calls. The tests are sequential.
- `WebViewTrackingTests.TestSendingWebRUMEvent`: the RUM event body carries
  only some of the test's view metrics (most timing fields are elided). The
  property checked, pass-through of the whole event and its `view.id`, does not
  depend on them.
- The benchmark memory sampler, the SPM smoke-test app and the Objective-C
  Session Replay configuration tests. They hold no bridge logic.
