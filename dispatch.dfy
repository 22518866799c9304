/**
 * What the two reader loops do with a parsed websocket message: the
 * host-side loop in `start_host`'s accept task and the client-side loop
 * spawned by `connect_to`.
 */
module Dispatch {
  import opened Wrappers
  import opened Protocol

  /** A websocket frame as a reader loop sees it. */
  datatype Frame =
    | Parsed(msg: WsMessage)
    | Unparsed   // a non-text frame, or text that does not parse as a WsMessage

  /** The message an emitted event forwards to the user interface, if it forwards one. */
  function Forwarded(e: Event): Option<WsMessage> {
    match e
    case RemoteClipboard(text) => Some(Clipboard(text))
    case RemoteFile(name, data) => Some(File(name, data))
    case FocusRequested => Some(WsMessage.BringToFront)
    case _ => None
  }

  /**
   * The client-side reader: Hello is ignored; every other message is
   * emitted as the matching event with its payload unchanged.
   */
  function ClientDispatch(msg: WsMessage): (r: Option<Event>)
    ensures r.None? <==> msg.Hello?
    ensures r.Some? ==> Forwarded(r.value) == Some(msg)
  {
    match msg
    case Hello(_) => None
    case Clipboard(text) => Some(RemoteClipboard(text))
    case File(name, data) => Some(RemoteFile(name, data))
    case BringToFront => Some(FocusRequested)
  }

  /**
   * The host-side reader: the new value of `peer_name`, if the message
   * sets it, and the event emitted. Hello{name} records the name and
   * announces the connection under it; every other message is handled as
   * the client side handles it and leaves `peer_name` alone.
   */
  function HostDispatch(msg: WsMessage): (r: (Option<string>, Event))
    ensures r.0.Some? <==> msg.Hello?
    ensures msg.Hello? ==> r.0 == Some(msg.name) && r.1 == Connected(msg.name)
    ensures !msg.Hello? ==> ClientDispatch(msg) == Some(r.1)
  {
    match msg
    case Hello(name) => (Some(name), Connected(name))
    case Clipboard(text) => (None, RemoteClipboard(text))
    case File(name, data) => (None, RemoteFile(name, data))
    case BringToFront => (None, FocusRequested)
  }
}
