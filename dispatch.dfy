/** The repository-dispatch event that `sendPOSTRequest` of
    extension/tgbot/main.go builds before encoding it as JSON. */
module Dispatcher {

  /** The event type every dispatch carries. */
  const WebhookEvent: string := "webhook"

  /** The `client_payload` object: the saved link, its page title and its tags. */
  datatype ClientPayload = ClientPayload(url: string, title: string, tags: seq<string>)

  /** The request body: `event_type` and `client_payload`. */
  datatype Dispatch = Dispatch(eventType: string, clientPayload: ClientPayload)

  /** The record `sendPOSTRequest(url, tags, title)` sends.  The arguments come
      in the order url, tags, title and land in the payload fields of the same
      name, whatever their values; the event type is always "webhook". */
  function MakeDispatch(url: string, tags: seq<string>, title: string): (d: Dispatch)
    ensures d.eventType == WebhookEvent
    ensures d.clientPayload.url == url && d.clientPayload.title == title && d.clientPayload.tags == tags
  {
    Dispatch(WebhookEvent, ClientPayload(url, title, tags))
  }
}
