/** The observable effects of the authentication flow, recorded in the order they happen:
    requests that reach the network, toast notifications, client-side router pushes and
    full-page navigations through `window.location`. */
module Effects {
  import Http

  datatype ToastKind = Success | Error

  datatype Effect =
    | Request(sent: Http.SentRequest)   // a call handed to the transport
    | Toast(kind: ToastKind, text: string)
    | RouterPush(path: string)          // `router.push(path)`
    | LocationAssign(path: string)      // `window.location.href = path`

  /** The browser tab's effect history. */
  class EffectLog {
    var events: seq<Effect>

    constructor ()
      ensures events == []
    {
      events := [];
    }

    method Record(e: Effect)
      modifies this
      ensures events == old(events) + [e]
    {
      events := events + [e];
    }
  }
}
