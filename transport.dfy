/**
 * One HTTP exchange as the middleware sees it: the express response object,
 * the `next` callback and the logger, observed as an ordered log of what was
 * done to them. `headersSent` becomes true once a response has been written.
 */
module Transport {
  import opened Wrappers

  datatype Event<E, B> =
    | Logged(error: E)
    | Responded(status: int, body: B)
    | HeadersAlreadySent(status: int)
    | NextCalled(passed: Option<E>)

  class Exchange<E, B> {
    var headersSent: bool
    var events: seq<Event<E, B>>

    constructor (headersSent: bool)
      ensures this.headersSent == headersSent && events == []
    {
      this.headersSent := headersSent;
      events := [];
    }

    /** The logger (or `console.error`) is handed the error. */
    method Log(error: E)
      modifies this
      ensures events == old(events) + [Logged(error)]
      ensures headersSent == old(headersSent)
    {
      events := events + [Logged(error)];
    }

    /**
     * `res.status(status).json(body)`. Once a response has started, setting
     * its headers throws ERR_HTTP_HEADERS_SENT: nothing is written, and the
     * failed attempt is recorded instead.
     */
    method Respond(status: int, body: B)
      modifies this
      ensures !old(headersSent) ==> events == old(events) + [Responded(status, body)]
      ensures old(headersSent) ==> events == old(events) + [HeadersAlreadySent(status)]
      ensures headersSent
    {
      if headersSent {
        events := events + [HeadersAlreadySent(status)];
      } else {
        events := events + [Responded(status, body)];
        headersSent := true;
      }
    }

    /** `next()` or `next(err)`. */
    method Next(error: Option<E>)
      modifies this
      ensures events == old(events) + [NextCalled(error)]
      ensures headersSent == old(headersSent)
    {
      events := events + [NextCalled(error)];
    }
  }
}
