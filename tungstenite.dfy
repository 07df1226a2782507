/**
 * The WebSocket framing library's vocabulary (tungstenite, re-exported by
 * the crate): the message variants, the role a stream is opened in, and the
 * stream built over a raw transport that the HTTP layer hands over.
 */
module Tungstenite {
  import opened Wrappers

  newtype byte = x: int | 0 <= x < 0x100

  /** A close frame's status code (a `u16`) and reason text. */
  datatype CloseFrame = CloseFrame(code: nat, reason: string)

  /** `Message`: text, binary, ping, pong or close. */
  datatype Message =
    | Text(text: string)
    | Binary(bytes: seq<byte>)
    | Ping(payload: seq<byte>)
    | Pong(payload: seq<byte>)
    | Close(frame: Option<CloseFrame>)

  /** The framing library's error, left opaque. */
  datatype WsError = WsError(description: string)

  datatype Role = Server | Client

  /** The raw duplex transport released by the HTTP layer after the 101 reply. */
  datatype Socket = Socket(id: nat)

  /** `WebSocketStream::from_raw_socket(socket, role, None)`. */
  datatype WebSocketStream = WebSocketStream(socket: Socket, role: Role)
}
