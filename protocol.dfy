/**
 * The values that cross the boundaries of the session core: peers, the
 * websocket messages two devices exchange, and the events the native side
 * pushes to the user interface.
 */
module Protocol {

  /** Rust's `u16`, the type of a TCP port. */
  newtype U16 = x: int | 0 <= x < 0x1_0000

  /** A discovered device: display name, host and port. */
  datatype Peer = Peer(name: string, host: string, port: U16)

  /** The messages sent over the websocket (`WsMessage`, tagged by "type"). */
  datatype WsMessage =
    | Hello(name: string)
    | Clipboard(text: string)
    | File(name: string, data: string)
    | BringToFront

  /** The events the native side emits to the user interface, one constructor per event name. */
  datatype Event =
    | Peers(peers: seq<Peer>)                  // "peers"
    | Connected(name: string)                  // "connected"
    | Disconnected                             // "disconnected"
    | RemoteClipboard(text: string)            // "remote_clipboard"
    | RemoteFile(name: string, data: string)   // "remote_file"
    | FocusRequested                           // "bring_to_front"
}
