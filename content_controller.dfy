/**
 * The user-content controller a web view's scripts and message handlers are
 * attached to, as the tests' `DDUserContentController` keeps it: a list of
 * user scripts and an ordered list of (name, handler) pairs.
 */
module ContentController {
  import opened Seqs
  import opened Sampling

  datatype UserScript = UserScript(source: string)

  /** The Datadog bridge handler with its logs sampler, or any handler of the embedding app. */
  datatype MessageHandler =
    | BridgeHandler(logsSampler: Sampler)
    | AppHandler(id: nat)

  datatype NameHandlerPair = NameHandlerPair(name: string, handler: MessageHandler)

  /** Everything a controller holds, as a value. */
  datatype Surface = Surface(userScripts: seq<UserScript>, messageHandlers: seq<NameHandlerPair>)

  /** `messageHandlers.map { $0.name }` */
  function Names(hs: seq<NameHandlerPair>): (r: seq<string>)
    ensures |r| == |hs|
    ensures forall i :: 0 <= i < |hs| ==> r[i] == hs[i].name
    decreases |hs|
  {
    if hs == [] then [] else [hs[0].name] + Names(hs[1..])
  }

  /** The test `filter` applies: the pair is not registered under `name`. */
  function NotNamed(name: string): NameHandlerPair -> bool
  {
    (p: NameHandlerPair) => p.name != name
  }

  /** The handler list once every pair registered under `name` is dropped. */
  function RemoveNamed(hs: seq<NameHandlerPair>, name: string): seq<NameHandlerPair>
  {
    Filter(NotNamed(name), hs)
  }

  /** How many pairs are registered under `name`. */
  function CountNamed(hs: seq<NameHandlerPair>, name: string): (n: nat)
    ensures n <= |hs|
    decreases |hs|
  {
    if hs == [] then 0 else (if hs[0].name == name then 1 else 0) + CountNamed(hs[1..], name)
  }

  /** A pair survives removal exactly when it was there under another name. */
  lemma RemoveNamedMembers(hs: seq<NameHandlerPair>, name: string, p: NameHandlerPair)
    ensures p in RemoveNamed(hs, name) <==> p in hs && p.name != name
  {
    if p in hs && p.name != name {
      FilterKeeps(NotNamed(name), hs, p);
    }
  }

  /** Removal deletes exactly the pairs registered under `name`. */
  lemma {:induction false} RemoveNamedLength(hs: seq<NameHandlerPair>, name: string)
    ensures |RemoveNamed(hs, name)| == |hs| - CountNamed(hs, name)
    decreases |hs|
  {
    if hs != [] {
      RemoveNamedLength(hs[1..], name);
    }
  }

  /** Removal acts on each part of a list separately, so the survivors keep their order. */
  lemma RemoveNamedAppend(a: seq<NameHandlerPair>, b: seq<NameHandlerPair>, name: string)
    ensures RemoveNamed(a + b, name) == RemoveNamed(a, name) + RemoveNamed(b, name)
  {
    FilterAppend(NotNamed(name), a, b);
  }

  /** Removing a name nobody registered changes nothing. */
  lemma RemoveNamedAbsent(hs: seq<NameHandlerPair>, name: string)
    requires forall i :: 0 <= i < |hs| ==> hs[i].name != name
    ensures RemoveNamed(hs, name) == hs
  {
    FilterAll(NotNamed(name), hs);
  }

  class UserContentController {
    /** The controller's object identity (`controller.hash`). */
    const hash: int
    var userScripts: seq<UserScript>
    var messageHandlers: seq<NameHandlerPair>

    constructor (hash: int)
      ensures this.hash == hash
      ensures userScripts == [] && messageHandlers == []
    {
      this.hash := hash;
      userScripts := [];
      messageHandlers := [];
    }

    function Contents(): Surface
      reads this
    {
      Surface(userScripts, messageHandlers)
    }

    /** `addUserScript(_:)`: the script goes last. */
    method AddUserScript(script: UserScript)
      modifies this
      ensures userScripts == old(userScripts) + [script]
      ensures messageHandlers == old(messageHandlers)
    {
      userScripts := userScripts + [script];
    }

    /** `removeAllUserScripts()` */
    method RemoveAllUserScripts()
      modifies this
      ensures userScripts == []
      ensures messageHandlers == old(messageHandlers)
    {
      userScripts := [];
    }

    /** `add(_:name:)`: one pair appended at the end. */
    method Add(handler: MessageHandler, name: string)
      modifies this
      ensures messageHandlers == old(messageHandlers) + [NameHandlerPair(name, handler)]
      ensures userScripts == old(userScripts)
    {
      messageHandlers := messageHandlers + [NameHandlerPair(name, handler)];
    }

    /** `removeScriptMessageHandler(forName:)`: the list reassigned to its filtered self. */
    method RemoveScriptMessageHandler(name: string)
      modifies this
      ensures messageHandlers == RemoveNamed(old(messageHandlers), name)
      ensures forall i :: 0 <= i < |messageHandlers| ==> messageHandlers[i].name != name
      ensures |messageHandlers| == |old(messageHandlers)| - CountNamed(old(messageHandlers), name)
      ensures userScripts == old(userScripts)
    {
      RemoveNamedLength(messageHandlers, name);
      messageHandlers := RemoveNamed(messageHandlers, name);
      forall i | 0 <= i < |messageHandlers| ensures messageHandlers[i].name != name {
        assert messageHandlers[i] in messageHandlers;
      }
    }
  }
}
