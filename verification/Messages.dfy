// The signaling wire format (internal/protocol/messages.go). Payloads are opaque
// to the server, so their type is a parameter.
module Messages {
  import opened Options

  datatype Kind =
    | CreateSession | JoinSession | Relay | IceCandidate | IceCredentials
    | SessionCreated | SessionReady | Error
    | Unknown(name: string)

  datatype Message<P> = Message(kind: Kind, code: string, payload: Option<P>, text: string)

  function Plain<P>(kind: Kind): Message<P> {
    Message(kind, "", None, "")
  }
}
