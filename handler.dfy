/**
 * The bridge's script-message handler: each posted body is decoded against
 * the receiving controller's slot, logs pass through the logs sampler, and
 * at most one message reaches the SDK's message receiver.
 */
module ScriptMessageHandler {
  import opened Wrappers
  import opened Json
  import opened Sampling
  import opened Decimal
  import opened ContentController
  import opened WebViewMessages

  /** `"\(controller.hash)"`: a numeral that reads back as the controller's identity. */
  function SlotId(controller: UserContentController): (s: string)
    ensures IsNumeral(s) && ParseInt(s) == controller.hash
  {
    IntToStringRoundTrip(controller.hash);
    IntToString(controller.hash)
  }

  /**
   * What the handler forwards for one body, given the sampler's draw for it:
   * only what decoding yields, and everything it yields except a log the
   * sampler rejects.
   */
  function Receive(logsSampler: Sampler, slotId: string, body: Json, draw: real): (r: Option<WebViewMessage>)
    requires IsDraw(draw)
    ensures r.Some? ==> r == Decode(body, slotId)
    ensures r.None? && Decode(body, slotId).Some? ==> Decode(body, slotId).value.Log? && !Sample(logsSampler, draw)
  {
    match Decode(body, slotId)
    case Some(Log(event)) => if Sample(logsSampler, draw) then Some(Log(event)) else None
    case other => other
  }

  function Forwarded(r: Option<WebViewMessage>): seq<WebViewMessage>
  {
    match r case Some(m) => [m] case None => []
  }

  /** The SDK's message receiver, keeping what it was sent. */
  class MessageReceiverMock {
    var messages: seq<WebViewMessage>

    constructor ()
      ensures messages == []
    {
      messages := [];
    }

    method Send(message: WebViewMessage)
      modifies this
      ensures messages == old(messages) + [message]
    {
      messages := messages + [message];
    }
  }

  /** `userContentController(_:didReceive:)` of the handler whose logs sampler is `logsSampler`. */
  method DidReceive(logsSampler: Sampler, controller: UserContentController, body: Json, draw: real,
                    receiver: MessageReceiverMock)
    requires IsDraw(draw)
    modifies receiver
    ensures receiver.messages == old(receiver.messages) + Forwarded(Receive(logsSampler, SlotId(controller), body, draw))
  {
    var forwarded := Receive(logsSampler, SlotId(controller), body, draw);
    if forwarded.Some? {
      receiver.Send(forwarded.value);
    }
  }

  /** The sampler decides only about logs, and a decoded log is forwarded exactly when it is admitted. */
  lemma ReceiveSamplesOnlyLogs(logsSampler: Sampler, slotId: string, body: Json, draw: real)
    requires IsDraw(draw)
    ensures var d := Decode(body, slotId);
      && (d.Some? && d.value.Log? ==>
            (Receive(logsSampler, slotId, body, draw) == d <==> Sample(logsSampler, draw)))
      && (d.Some? && d.value.Log? && !Sample(logsSampler, draw) ==> Receive(logsSampler, slotId, body, draw) == None)
      && (!(d.Some? && d.value.Log?) ==> Receive(logsSampler, slotId, body, draw) == d)
  {
  }

  /** With a logs rate of 100 the handler forwards exactly what decoding yields. */
  lemma FullRateForwardsEverything(logsSampler: Sampler, slotId: string, body: Json, draw: real)
    requires logsSampler.samplingRate >= 100.0 && IsDraw(draw)
    ensures Receive(logsSampler, slotId, body, draw) == Decode(body, slotId)
  {
  }

  /** Records received on controllers of distinct identity carry distinct slots. */
  lemma SlotIdsIdentifyControllers(c1: UserContentController, c2: UserContentController)
    requires c1.hash != c2.hash
    ensures SlotId(c1) != SlotId(c2)
  {
    IntToStringInjective(c1.hash, c2.hash);
  }

  /** A record's slot reads back as the identity of the controller that received it. */
  lemma RecordSlotIsControllerHash(logsSampler: Sampler, controller: UserContentController, body: Json, draw: real)
    requires IsDraw(draw)
    ensures var r := Receive(logsSampler, SlotId(controller), body, draw);
      r.Some? && r.value.Record? ==>
        var slot := r.value.record.slotId;
        IsNumeral(slot) && ParseInt(slot) == controller.hash
  {
    IntToStringRoundTrip(controller.hash);
  }
}
