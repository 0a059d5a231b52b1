/**
 * The part of a browser WebSocket the dashboard code depends on: its ready
 * state, and what `close()` does to it.
 */
module Sockets {

  datatype ReadyState = Connecting | Open | Closing | Closed

  /** `socket.close()`: a connecting or open socket starts closing; on a
    * closing or closed socket the call has no effect. */
  function CloseCall(rs: ReadyState): (r: ReadyState)
    ensures rs == Connecting || rs == Open ==> r == Closing
    ensures rs == Closing || rs == Closed ==> r == rs
  {
    if rs == Connecting || rs == Open then Closing else rs
  }
}
