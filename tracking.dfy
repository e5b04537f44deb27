/**
 * Enabling and disabling the Datadog event bridge on a user-content
 * controller: one injected script and one handler under a reserved name,
 * a warning instead of a second registration, and a removal that leaves
 * the embedding app's own scripts and handlers as they were.
 */
module WebViewTracking {
  import opened Seqs
  import opened Sampling
  import opened ContentController

  /** The reserved name the bridge handler is registered under. */
  const BridgeName: string := "DatadogEventBridge"
  /** The first characters of the injected script, by which it is recognised. */
  const JsCodePrefix: string := "/* DatadogEventBridge */"
  /** Handed to the host sanitizer with every sanitization. */
  const InvalidHostWarning: string := "The allowed WebView host configured for Datadog SDK is not valid"
  /** Logged for every `enable` on a controller that is already tracked. */
  const DuplicateEnableWarning: string :=
    "`startTrackingDatadogEvents(core:hosts:)` was called more than once for the same WebView. Second call will be ignored. Make sure you call it only once."

  /** One call the host sanitizer received. */
  datatype Sanitization = Sanitization(hosts: seq<string>, warningMessage: string)

  /** The host sanitizer the tests install: it records each call and allows the hosts it is given. */
  class HostsSanitizerMock {
    var sanitizations: seq<Sanitization>

    constructor ()
      ensures sanitizations == []
    {
      sanitizations := [];
    }

    method Sanitized(hosts: seq<string>, warningMessage: string) returns (allowed: seq<string>)
      modifies this
      ensures allowed == hosts
      ensures sanitizations == old(sanitizations) + [Sanitization(hosts, warningMessage)]
    {
      sanitizations := sanitizations + [Sanitization(hosts, warningMessage)];
      allowed := hosts;
    }
  }

  /** The SDK's diagnostic logger, as far as warnings go. */
  class CoreLoggerMock {
    var warnLogs: seq<string>

    constructor ()
      ensures warnLogs == []
    {
      warnLogs := [];
    }

    method Warn(message: string)
      modifies this
      ensures warnLogs == old(warnLogs) + [message]
    {
      warnLogs := warnLogs + [message];
    }
  }

  predicate IsBridgeScript(s: UserScript) {
    JsCodePrefix <= s.source
  }

  function NotBridgeScript(): UserScript -> bool {
    (s: UserScript) => !IsBridgeScript(s)
  }

  /** The controller already carries the injected script. */
  predicate IsTracking(scripts: seq<UserScript>) {
    exists i :: 0 <= i < |scripts| && IsBridgeScript(scripts[i])
  }

  /** The allowed hosts as the comma-separated, quoted list the script embeds. */
  function QuotedHosts(hosts: seq<string>): string
    decreases |hosts|
  {
    if hosts == [] then ""
    else if |hosts| == 1 then "\"" + hosts[0] + "\""
    else "\"" + hosts[0] + "\"," + QuotedHosts(hosts[1..])
  }

  /** The injected script: the recognisable prefix, then the allowed-host list. */
  function BridgeScript(allowedHosts: seq<string>): (s: UserScript)
    ensures IsBridgeScript(s)
  {
    var source := JsCodePrefix + "\n[" + QuotedHosts(allowedHosts) + "]";
    assert source[..|JsCodePrefix|] == JsCodePrefix;
    UserScript(source)
  }

  /** What the tests observe: the controller, the sanitizer's calls, the logged warnings. */
  datatype Observation = Observation(surface: Surface, sanitizations: seq<Sanitization>, warnings: seq<string>)

  function Observe(controller: UserContentController, sanitizer: HostsSanitizerMock, logger: CoreLoggerMock): Observation
    reads controller, sanitizer, logger
  {
    Observation(controller.Contents(), sanitizer.sanitizations, logger.warnLogs)
  }

  /** The effect of one `enable`, with the tests' sanitizer. */
  function EnableEffect(o: Observation, hosts: seq<string>, logsSampleRate: real): Observation
  {
    if IsTracking(o.surface.userScripts) then
      o.(warnings := o.warnings + [DuplicateEnableWarning])
    else
      Observation(
        Surface(o.surface.userScripts + [BridgeScript(hosts)],
                o.surface.messageHandlers + [NameHandlerPair(BridgeName, BridgeHandler(Sampler(logsSampleRate)))]),
        o.sanitizations + [Sanitization(hosts, InvalidHostWarning)],
        o.warnings)
  }

  /** The effect of `n` successive `enable` calls with the same arguments. */
  function EnableTimes(o: Observation, hosts: seq<string>, logsSampleRate: real, n: nat): Observation
    decreases n
  {
    if n == 0 then o else EnableEffect(EnableTimes(o, hosts, logsSampleRate, n - 1), hosts, logsSampleRate)
  }

  /** The effect of `disable`: no handler under the reserved name, no injected script. */
  function DisableEffect(s: Surface): Surface
  {
    Surface(Filter(NotBridgeScript(), s.userScripts), RemoveNamed(s.messageHandlers, BridgeName))
  }

  /**
   * `WebViewTracking.enable(tracking:hosts:hostsSanitizer:logsSampleRate:in:)`:
   * a tracked controller only gets a warning; otherwise the bridge handler is
   * registered and the script, built from the sanitized hosts, is injected.
   */
  method Enable(controller: UserContentController, hosts: seq<string>, sanitizer: HostsSanitizerMock,
                logsSampleRate: real, logger: CoreLoggerMock)
    modifies controller, sanitizer, logger
    ensures Observe(controller, sanitizer, logger) ==
            EnableEffect(old(Observe(controller, sanitizer, logger)), hosts, logsSampleRate)
  {
    var isTracking := IsTracking(controller.userScripts);
    if isTracking {
      logger.Warn(DuplicateEnableWarning);
      return;
    }
    var handler := BridgeHandler(Sampler(logsSampleRate));
    controller.Add(handler, BridgeName);
    var allowedHosts := sanitizer.Sanitized(hosts, InvalidHostWarning);
    controller.AddUserScript(BridgeScript(allowedHosts));
  }

  /**
   * `WebViewTracking.disable(webView:)`: the bridge handler is removed by name;
   * the scripts are cleared and every script that is not Datadog's is added back in order.
   */
  method Disable(controller: UserContentController)
    modifies controller
    ensures controller.Contents() == DisableEffect(old(controller.Contents()))
  {
    controller.RemoveScriptMessageHandler(BridgeName);
    var others := Filter(NotBridgeScript(), controller.userScripts);
    controller.RemoveAllUserScripts();
    var i := 0;
    while i < |others|
      invariant 0 <= i <= |others|
      invariant controller.userScripts == others[..i]
      invariant controller.messageHandlers == RemoveNamed(old(controller.messageHandlers), BridgeName)
    {
      controller.AddUserScript(others[i]);
      assert others[..i + 1] == others[..i] + [others[i]];
      i := i + 1;
    }
    assert others[..|others|] == others;
  }

  /** `Array(repeating:count:)` */
  function Repeat(x: string, n: nat): (r: seq<string>)
    ensures |r| == n
    ensures forall i :: 0 <= i < n ==> r[i] == x
    decreases n
  {
    if n == 0 then [] else Repeat(x, n - 1) + [x]
  }

  lemma NamesAppend(a: seq<NameHandlerPair>, b: seq<NameHandlerPair>)
    ensures Names(a + b) == Names(a) + Names(b)
  {
  }

  /**
   * One `enable` on an untracked controller injects exactly one script,
   * registers exactly one more handler, under the reserved name and with the
   * given logs rate, and consults the sanitizer once with the fixed warning.
   */
  lemma EnableOnUntracked(o: Observation, hosts: seq<string>, logsSampleRate: real)
    requires !IsTracking(o.surface.userScripts)
    ensures var e := EnableEffect(o, hosts, logsSampleRate);
      && |e.surface.userScripts| == |o.surface.userScripts| + 1
      && e.surface.userScripts[..|o.surface.userScripts|] == o.surface.userScripts
      && IsTracking(e.surface.userScripts)
      && Names(e.surface.messageHandlers) == Names(o.surface.messageHandlers) + [BridgeName]
      && e.surface.messageHandlers[..|o.surface.messageHandlers|] == o.surface.messageHandlers
      && e.surface.messageHandlers[|o.surface.messageHandlers|].handler == BridgeHandler(Sampler(logsSampleRate))
      && e.sanitizations == o.sanitizations + [Sanitization(hosts, InvalidHostWarning)]
      && e.warnings == o.warnings
  {
    var e := EnableEffect(o, hosts, logsSampleRate);
    var s := e.surface.userScripts;
    assert IsBridgeScript(s[|s| - 1]);
    NamesAppend(o.surface.messageHandlers, [NameHandlerPair(BridgeName, BridgeHandler(Sampler(logsSampleRate)))]);
  }

  /** `enable` on a tracked controller logs one warning and changes nothing else. */
  lemma EnableOnTracked(o: Observation, hosts: seq<string>, logsSampleRate: real)
    requires IsTracking(o.surface.userScripts)
    ensures var e := EnableEffect(o, hosts, logsSampleRate);
      && e.surface == o.surface
      && e.sanitizations == o.sanitizations
      && e.warnings == o.warnings + [DuplicateEnableWarning]
  {
  }

  /**
   * `n` calls of `enable` on an untracked controller leave one script and one
   * handler of Datadog's, with the first call's sampler, and `n - 1` warnings;
   * the sanitizer is consulted at least once, first with the given hosts.
   */
  lemma {:induction false} EnableRepeatedly(o: Observation, hosts: seq<string>, logsSampleRate: real, n: nat)
    requires n >= 1
    requires !IsTracking(o.surface.userScripts)
    ensures var e := EnableTimes(o, hosts, logsSampleRate, n);
      && |e.surface.userScripts| == |o.surface.userScripts| + 1
      && IsTracking(e.surface.userScripts)
      && Names(e.surface.messageHandlers) == Names(o.surface.messageHandlers) + [BridgeName]
      && e.surface.messageHandlers[|o.surface.messageHandlers|].handler == BridgeHandler(Sampler(logsSampleRate))
      && |e.sanitizations| >= |o.sanitizations| + 1
      && e.sanitizations[|o.sanitizations|] == Sanitization(hosts, InvalidHostWarning)
      && e.warnings == o.warnings + Repeat(DuplicateEnableWarning, n - 1)
    decreases n
  {
    if n == 1 {
      assert EnableTimes(o, hosts, logsSampleRate, 1) == EnableEffect(o, hosts, logsSampleRate);
      EnableOnUntracked(o, hosts, logsSampleRate);
      assert o.warnings + Repeat(DuplicateEnableWarning, 0) == o.warnings;
    } else {
      EnableRepeatedly(o, hosts, logsSampleRate, n - 1);
      var p := EnableTimes(o, hosts, logsSampleRate, n - 1);
      EnableOnTracked(p, hosts, logsSampleRate);
      assert o.warnings + Repeat(DuplicateEnableWarning, n - 1)
          == (o.warnings + Repeat(DuplicateEnableWarning, n - 2)) + [DuplicateEnableWarning];
    }
  }

  /**
   * `disable` after `enable`, with app scripts and handlers added after it,
   * removes exactly Datadog's two entries: what the app had before and added
   * after remains, in order.
   */
  lemma DisableAfterEnable(o: Observation, hosts: seq<string>, logsSampleRate: real,
                           appScripts: seq<UserScript>, appHandlers: seq<NameHandlerPair>)
    requires !IsTracking(o.surface.userScripts) && !IsTracking(appScripts)
    requires forall i :: 0 <= i < |o.surface.messageHandlers| ==> o.surface.messageHandlers[i].name != BridgeName
    requires forall i :: 0 <= i < |appHandlers| ==> appHandlers[i].name != BridgeName
    ensures var e := EnableEffect(o, hosts, logsSampleRate).surface;
      DisableEffect(Surface(e.userScripts + appScripts, e.messageHandlers + appHandlers))
        == Surface(o.surface.userScripts + appScripts, o.surface.messageHandlers + appHandlers)
  {
    var scripts := o.surface.userScripts;
    var handlers := o.surface.messageHandlers;
    var script := BridgeScript(hosts);
    var pair := NameHandlerPair(BridgeName, BridgeHandler(Sampler(logsSampleRate)));
    assert (scripts + [script]) + appScripts == scripts + ([script] + appScripts);
    FilterAppend(NotBridgeScript(), scripts, [script] + appScripts);
    FilterAppend(NotBridgeScript(), [script], appScripts);
    assert Filter(NotBridgeScript(), [script]) == [];
    FilterAll(NotBridgeScript(), scripts);
    FilterAll(NotBridgeScript(), appScripts);
    assert (handlers + [pair]) + appHandlers == handlers + ([pair] + appHandlers);
    RemoveNamedAppend(handlers, [pair] + appHandlers, BridgeName);
    RemoveNamedAppend([pair], appHandlers, BridgeName);
    assert RemoveNamed([pair], BridgeName) == [];
    RemoveNamedAbsent(handlers, BridgeName);
    RemoveNamedAbsent(appHandlers, BridgeName);
  }

  /** With `k` app scripts and handlers, the counts go from `k + 1` to `k`. */
  lemma DisableAfterEnableCounts(hosts: seq<string>, logsSampleRate: real,
                                 appScripts: seq<UserScript>, appHandlers: seq<NameHandlerPair>)
    requires !IsTracking(appScripts)
    requires forall i :: 0 <= i < |appHandlers| ==> appHandlers[i].name != BridgeName
    ensures var e := EnableEffect(Observation(Surface([], []), [], []), hosts, logsSampleRate).surface;
      var before := Surface(e.userScripts + appScripts, e.messageHandlers + appHandlers);
      && |before.userScripts| == |appScripts| + 1
      && |before.messageHandlers| == |appHandlers| + 1
      && DisableEffect(before) == Surface(appScripts, appHandlers)
  {
    DisableAfterEnable(Observation(Surface([], []), [], []), hosts, logsSampleRate, appScripts, appHandlers);
  }

  /** After `disable` the controller is untracked and holds no handler under the reserved name. */
  lemma DisableUnregisters(s: Surface)
    ensures !IsTracking(DisableEffect(s).userScripts)
    ensures forall i :: 0 <= i < |DisableEffect(s).messageHandlers| ==>
              DisableEffect(s).messageHandlers[i].name != BridgeName
  {
    var d := DisableEffect(s);
    forall i | 0 <= i < |d.userScripts| ensures !IsBridgeScript(d.userScripts[i]) {
      assert d.userScripts[i] in d.userScripts;
    }
    forall i | 0 <= i < |d.messageHandlers| ensures d.messageHandlers[i].name != BridgeName {
      assert d.messageHandlers[i] in d.messageHandlers;
    }
  }

  /**
   * The guard reads the scripts, the registration lives in the handler list:
   * the two agree when the controller carries the injected script exactly
   * when it carries a handler under the reserved name.
   */
  predicate GuardMatchesRegistration(s: Surface) {
    IsTracking(s.userScripts) <==> BridgeName in Names(s.messageHandlers)
  }

  /** `enable` keeps the guard and the registration in agreement. */
  lemma EnableKeepsGuardMatchingRegistration(o: Observation, hosts: seq<string>, logsSampleRate: real)
    requires GuardMatchesRegistration(o.surface)
    ensures GuardMatchesRegistration(EnableEffect(o, hosts, logsSampleRate).surface)
  {
    if !IsTracking(o.surface.userScripts) {
      EnableOnUntracked(o, hosts, logsSampleRate);
      var names := Names(EnableEffect(o, hosts, logsSampleRate).surface.messageHandlers);
      assert names[|names| - 1] == BridgeName;
    }
  }

  /** After `disable` neither the script nor the handler is there, so the two agree. */
  lemma DisableMakesGuardMatchRegistration(s: Surface)
    ensures !IsTracking(DisableEffect(s).userScripts)
    ensures BridgeName !in Names(DisableEffect(s).messageHandlers)
    ensures GuardMatchesRegistration(DisableEffect(s))
  {
    DisableUnregisters(s);
    var names := Names(DisableEffect(s).messageHandlers);
    forall i | 0 <= i < |names| ensures names[i] != BridgeName {
      assert names[i] == DisableEffect(s).messageHandlers[i].name;
    }
  }

  /**
   * Where the two come apart: once the app clears the user scripts of an
   * enabled controller, the next `enable` registers a second handler under
   * the reserved name.
   */
  lemma ClearedScriptsLetEnableRegisterTwice(hosts: seq<string>, logsSampleRate: real)
    ensures var e := EnableEffect(Observation(Surface([], []), [], []), hosts, logsSampleRate);
      var cleared := e.(surface := e.surface.(userScripts := []));
      && !GuardMatchesRegistration(cleared.surface)
      && Names(EnableEffect(cleared, hosts, logsSampleRate).surface.messageHandlers) == [BridgeName, BridgeName]
  {
    var o := Observation(Surface([], []), [], []);
    EnableOnUntracked(o, hosts, logsSampleRate);
    var e := EnableEffect(o, hosts, logsSampleRate);
    var cleared := e.(surface := e.surface.(userScripts := []));
    EnableOnUntracked(cleared, hosts, logsSampleRate);
  }
}
