/** Body providers: how a handler extracts the body it forwards from the inbound event. */
module BodyProviders {
  import opened Common
  import opened Errors
  import opened Requests

  /** A stage that yields the body to forward, or throws. */
  type BodyProvider = Event -> Result<Body, Thrown>

  /** extractEventBody: whatever readBody parses from the event, unchanged. */
  function ExtractEventBody(event: Event): (r: Result<Body, Thrown>)
    ensures r == Ok(event.inboundBody)
  {
    Ok(event.inboundBody)
  }

  /** noBody: `undefined`, whatever the event holds. */
  function NoBody(event: Event): (r: Result<Body, Thrown>)
    ensures r == Ok(Undefined)
  {
    Ok(Undefined)
  }

  /**
   * getDefaultBodyProvider: an omitted method, GET and DELETE forward no
   * body; POST and PUT forward the inbound body.
   */
  function GetDefaultBodyProvider(verb: Option<Method>): (provider: BodyProvider)
    ensures verb in {None, Some(GET), Some(DELETE)} ==>
              forall event :: provider(event) == Ok(Undefined)
    ensures verb in {Some(POST), Some(PUT)} ==>
              forall event :: provider(event) == Ok(event.inboundBody)
  {
    match verb
    case None => NoBody
    case Some(GET) => NoBody
    case Some(DELETE) => NoBody
    case _ => ExtractEventBody
  }

  /** The default provider drops the inbound body exactly for an omitted verb, GET and DELETE. */
  lemma DefaultProviderDropsBodyIff(verb: Option<Method>)
    ensures (forall event :: GetDefaultBodyProvider(verb)(event) == Ok(Undefined))
            <==> verb in {None, Some(GET), Some(DELETE)}
  {
    if verb !in {None, Some(GET), Some(DELETE)} {
      var withBody := Event(Json("{}"), None, None);
      assert GetDefaultBodyProvider(verb)(withBody) != Ok(Undefined);
    }
  }
}
