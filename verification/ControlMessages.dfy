/** Control stream messages (crates/cy-proto/src/control.rs) and error codes (crates/cy-proto/src/error.rs). */
module ControlMessages {
  import opened Basics
  import opened Registry

  datatype Code = CodeTaken | CodeNameInvalid | CodePortTaken | CodePoolExhausted | CodeLimit | CodeInternal

  /** Where an opened tunnel can be reached; `Url` keeps the host and leaves out the fixed scheme prefix. */
  datatype Endpoint = Url(host: Host) | Addr(port: Port)

  datatype ClientMsg =
    | OpenTunnel(
        id: TunnelId,
        kind: Kind,
        name: string,
        customDomain: Option<string>,
        auth: Option<string>,
        remotePort: Option<Port>)
    | CloseTunnel(id: TunnelId)
    | ClientPing(seqno: nat)
    | ClientPong(seqno: nat)
    | Hello
    | ClientUnknown

  datatype ServerMsg =
    | Welcome
    | TunnelOpened(id: TunnelId, public: Endpoint)
    | Failure(code: Code, subject: Option<TunnelId>)
    | Kick
    | ServerPing(seqno: nat)
    | ServerPong(seqno: nat)
    | ServerUnknown
}
