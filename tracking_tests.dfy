/**
 * The scenarios of `WebViewTrackingTests`, restated over the model: each
 * builds its own controller, sanitizer, logger and message receiver and
 * returns what the corresponding test asserts about.
 */
module WebViewTrackingTests {
  import opened Wrappers
  import opened Json
  import opened Sampling
  import opened ContentController
  import opened WebViewMessages
  import opened WebViewTracking
  import opened ScriptMessageHandler
  import Decimal

  const TestHosts: seq<string> := ["datadoghq.com"]

  /** One `enable` with logs rate 30 on a new controller. */
  method TestItAddsUserScriptAndMessageHandler(hash: int)
    returns (addedScripts: int, handlerNames: seq<string>, firstHandler: MessageHandler,
             sanitizations: seq<Sanitization>)
    ensures addedScripts == 1
    ensures handlerNames == [BridgeName]
    ensures firstHandler == BridgeHandler(Sampler(30.0))
    ensures sanitizations == [Sanitization(TestHosts, InvalidHostWarning)]
  {
    var sanitizer := new HostsSanitizerMock();
    var controller := new UserContentController(hash);
    var logger := new CoreLoggerMock();
    var initialCount := |controller.userScripts|;
    Enable(controller, TestHosts, sanitizer, 30.0, logger);
    EnableOnUntracked(Observation(Surface([], []), [], []), TestHosts, 30.0);
    addedScripts := |controller.userScripts| - initialCount;
    handlerNames := Names(controller.messageHandlers);
    firstHandler := controller.messageHandlers[0].handler;
    sanitizations := sanitizer.sanitizations;
  }

  /** `enable` called `times` times on one controller. */
  method TestEnableMultipleTimes(hash: int, times: nat)
    returns (addedScripts: int, handlerNames: seq<string>, sanitizationCount: nat,
             firstSanitization: Sanitization, warnLogs: seq<string>)
    requires times >= 1
    ensures addedScripts == 1
    ensures handlerNames == [BridgeName]
    ensures sanitizationCount >= 1
    ensures firstSanitization == Sanitization(TestHosts, InvalidHostWarning)
    ensures warnLogs == Repeat(DuplicateEnableWarning, times - 1)
  {
    var sanitizer := new HostsSanitizerMock();
    var controller := new UserContentController(hash);
    var logger := new CoreLoggerMock();
    ghost var start := Observe(controller, sanitizer, logger);
    var initialCount := |controller.userScripts|;
    var i := 0;
    while i < times
      invariant 0 <= i <= times
      invariant Observe(controller, sanitizer, logger) == EnableTimes(start, TestHosts, 100.0, i)
    {
      Enable(controller, TestHosts, sanitizer, 100.0, logger);
      i := i + 1;
    }
    EnableRepeatedly(start, TestHosts, 100.0, times);
    addedScripts := |controller.userScripts| - initialCount;
    handlerNames := Names(controller.messageHandlers);
    sanitizationCount := |sanitizer.sanitizations|;
    firstSanitization := sanitizer.sanitizations[0];
    warnLogs := logger.warnLogs;
  }

  /**
   * `enable`, then the app adds one script and one handler per entry of
   * `appSources` and `appNames`, then `disable`; the counts before and after.
   */
  method TestStoppingTrackingKeepsNonDatadogComponents(hash: int, hosts: seq<string>, logsSampleRate: real,
                                                       appSources: seq<string>, appNames: seq<string>)
    returns (scriptsBefore: nat, handlersBefore: nat, scriptsAfter: nat, handlersAfter: nat,
             remaining: seq<UserScript>)
    requires |appSources| == |appNames|
    requires forall i :: 0 <= i < |appSources| ==> !(JsCodePrefix <= appSources[i])
    requires forall i :: 0 <= i < |appNames| ==> appNames[i] != BridgeName
    ensures scriptsBefore == |appSources| + 1 && handlersBefore == |appSources| + 1
    ensures scriptsAfter == |appSources| && handlersAfter == |appSources|
    ensures |remaining| == |appSources|
    ensures forall i :: 0 <= i < |remaining| ==> remaining[i] == UserScript(appSources[i])
  {
    var sanitizer := new HostsSanitizerMock();
    var controller := new UserContentController(hash);
    var logger := new CoreLoggerMock();
    Enable(controller, hosts, sanitizer, logsSampleRate, logger);
    var enabled := controller.Contents();
    var appScripts: seq<UserScript> := [];
    var appHandlers: seq<NameHandlerPair> := [];
    var i := 0;
    while i < |appSources|
      invariant 0 <= i <= |appSources|
      invariant |appScripts| == i && |appHandlers| == i
      invariant forall j :: 0 <= j < i ==> appScripts[j] == UserScript(appSources[j])
      invariant forall j :: 0 <= j < i ==> appHandlers[j] == NameHandlerPair(appNames[j], AppHandler(j))
      invariant controller.userScripts == enabled.userScripts + appScripts
      invariant controller.messageHandlers == enabled.messageHandlers + appHandlers
    {
      var script := UserScript(appSources[i]);
      controller.AddUserScript(script);
      controller.Add(AppHandler(i), appNames[i]);
      appScripts := appScripts + [script];
      appHandlers := appHandlers + [NameHandlerPair(appNames[i], AppHandler(i))];
      i := i + 1;
    }
    scriptsBefore := |controller.userScripts|;
    handlersBefore := |controller.messageHandlers|;
    DisableAfterEnableCounts(hosts, logsSampleRate, appScripts, appHandlers);
    Disable(controller);
    scriptsAfter := |controller.userScripts|;
    handlersAfter := |controller.messageHandlers|;
    remaining := controller.userScripts;
  }

  /** The event object of the web log posted in `testSendingWebEvents`. */
  function WebLogEvent(): JsonObject
  {
    map[
      "date" := JNumber(1635932927012),
      "error" := JObject(map["origin" := JString("console")]),
      "message" := JString("console error: error"),
      "session_id" := JString("0110cab4-7471-480e-aa4e-7ce039ced355"),
      "status" := JString("error"),
      "view" := JObject(map["referrer" := JString(""),
                            "url" := JString("https://datadoghq.dev/browser-sdk-test-playground")])]
  }

  function BrowserSdkTags(): Json
  {
    JArray([JString("browser_sdk_version:3.6.13")])
  }

  function WebLogBody(): Json
  {
    JObject(map["eventType" := JString("log"), "event" := JObject(WebLogEvent()), "tags" := BrowserSdkTags()])
  }

  /** The RUM view event of `testSendingWebRUMEvent`, with most of its view metrics elided. */
  function WebRumEvent(): JsonObject
  {
    map[
      "application" := JObject(map["id" := JString("xxx")]),
      "date" := JNumber(1635933113708),
      "service" := JString("super"),
      "session" := JObject(map["id" := JString("0110cab4-7471-480e-aa4e-7ce039ced355"), "type" := JString("user")]),
      "type" := JString("view"),
      "view" := JObject(map[
        "id" := JString("64308fd4-83f9-48cb-b3e1-1e91f6721230"),
        "is_active" := JBool(true),
        "loading_type" := JString("initial_load"),
        "referrer" := JString(""),
        "time_spent" := JNumber(3120000000),
        "url" := JString("http://localhost:8080/test.html")])]
  }

  function WebRumBody(): Json
  {
    JObject(map["eventType" := JString("view"), "event" := JObject(WebRumEvent()), "tags" := BrowserSdkTags()])
  }

  function WebRecordEvent(): JsonObject
  {
    map["date" := JNumber(1635932927012)]
  }

  function WebRecordBody(): Json
  {
    JObject(map["eventType" := JString("record"),
                "event" := JObject(WebRecordEvent()),
                "view" := JObject(map["id" := JString("64308fd4-83f9-48cb-b3e1-1e91f6721230")])])
  }

  /** The forwarded log carries the test's fields exactly, and the top-level tags are not among them. */
  lemma WebLogEventFields()
    ensures WebLogEvent()["date"] == JNumber(1635932927012)
    ensures StringMember(WebLogEvent(), "message") == Some("console error: error")
    ensures StringMember(WebLogEvent(), "status") == Some("error")
    ensures ObjectMember(WebLogEvent(), "view") ==
            Some(map["referrer" := JString(""), "url" := JString("https://datadoghq.dev/browser-sdk-test-playground")])
    ensures ObjectMember(WebLogEvent(), "error") == Some(map["origin" := JString("console")])
    ensures StringMember(WebLogEvent(), "session_id") == Some("0110cab4-7471-480e-aa4e-7ce039ced355")
    ensures "tags" !in WebLogEvent()
  {
  }

  /** Enables with logs rate 100 and delivers `body` to the registered handler. */
  method EnableAndPost(hash: int, body: Json, draw: real)
    returns (controller: UserContentController, received: seq<WebViewMessage>)
    requires IsDraw(draw)
    ensures controller.hash == hash
    ensures received == Forwarded(Decode(body, SlotId(controller)))
  {
    var sanitizer := new HostsSanitizerMock();
    controller := new UserContentController(hash);
    var logger := new CoreLoggerMock();
    var receiver := new MessageReceiverMock();
    Enable(controller, TestHosts, sanitizer, 100.0, logger);
    var handler := controller.messageHandlers[0].handler;
    DidReceive(handler.logsSampler, controller, body, draw, receiver);
    FullRateForwardsEverything(handler.logsSampler, SlotId(controller), body, draw);
    received := receiver.messages;
  }

  /** `testSendingWebEvents`: exactly one log, whose event is the posted one. */
  method TestSendingWebEvents(hash: int, draw: real) returns (received: seq<WebViewMessage>)
    requires IsDraw(draw)
    ensures received == [Log(WebLogEvent())]
  {
    var controller;
    controller, received := EnableAndPost(hash, WebLogBody(), draw);
    assert ParseEnvelope(WebLogBody()) == Some(Envelope("log", WebLogEvent(), None));
  }

  /** `testSendingWebRUMEvent`: exactly one RUM event whose nested view id is the posted one. */
  method TestSendingWebRUMEvent(hash: int, draw: real) returns (received: seq<WebViewMessage>)
    requires IsDraw(draw)
    ensures |received| == 1 && received[0].Rum?
    ensures received[0].event == WebRumEvent()
    ensures ObjectMember(received[0].event, "view").Some?
    ensures StringMember(ObjectMember(received[0].event, "view").value, "id") == Some("64308fd4-83f9-48cb-b3e1-1e91f6721230")
  {
    var controller;
    controller, received := EnableAndPost(hash, WebRumBody(), draw);
    assert ParseEnvelope(WebRumBody()) == Some(Envelope("view", WebRumEvent(), None));
  }

  /** `testSendingWebRecordEvent`: exactly one record, for the posted view, on this controller's slot. */
  method TestSendingWebRecordEvent(hash: int, draw: real) returns (received: seq<WebViewMessage>)
    requires IsDraw(draw)
    ensures |received| == 1 && received[0].Record?
    ensures received[0].record.view.id == "64308fd4-83f9-48cb-b3e1-1e91f6721230"
    ensures received[0].record.slotId == Decimal.IntToString(hash)
    ensures received[0].record.event == WebRecordEvent()
    ensures received[0].record.event["date"] == JNumber(1635932927012)
  {
    var controller;
    controller, received := EnableAndPost(hash, WebRecordBody(), draw);
    assert ParseEnvelope(WebRecordBody()) ==
      Some(Envelope("record", WebRecordEvent(), Some(map["id" := JString("64308fd4-83f9-48cb-b3e1-1e91f6721230")])));
  }
}
