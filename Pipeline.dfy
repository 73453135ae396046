/**
 * The page and the gateway together: every payload the page builds passes
 * the gateway's shape checks, and, within the size ceiling and with a
 * well-formed key configured, reaches the upstream API unchanged.
 */
module Pipeline {
  import opened Wrappers
  import opened JsStrings
  import opened Json
  import Gemini
  import Gateway
  import Orchestrator

  /** Every payload serialises to an object whose `contents` is an array. */
  lemma PayloadShapeAccepted(p: Gemini.Payload)
    ensures Gateway.BodyIsObject(Some(Gemini.PayloadJson(p)))
    ensures Gateway.HasContentsArray(Gemini.PayloadJson(p))
  {
  }

  /**
   * A request the page sends, POSTed as JSON no longer than 10000 characters
   * to a gateway holding a key that starts with 'AIza', is forwarded to the
   * upstream URL for that key with its body unchanged, whatever the client
   * identity and the clock.
   */
  lemma PageRequestForwarded(request: Orchestrator.Request, payloadSize: nat, key: string,
                             forwardedFor: Option<string>, remoteAddress: string, now: int,
                             upstream: Gateway.UpstreamOutcome)
    requires payloadSize <= Gateway.MaxPayloadSize
    requires StartsWith(key, Gateway.KeyPrefix)
    ensures var body := Gemini.PayloadJson(Orchestrator.PayloadOf(request));
      var r := Gateway.Handle(Gateway.Request("POST", Some(body), forwardedFor, remoteAddress),
                              payloadSize, Some(key), now, upstream);
      r.upstream == Some(Gateway.UpstreamCall(Gateway.Endpoint + key, body))
  {
    PayloadShapeAccepted(Orchestrator.PayloadOf(request));
  }
}
