/** Channels, message kinds and packets, shared by the transport and the host backend. */
module Transport {
  import opened Bytes

  datatype ChannelKind = Video | Audio | Input | Control

  datatype MessageKind =
    | ClientHello | HostHello | AuthChallenge | AuthResponse | PairingRequest | PairingResult
    | DisplayInfo | EncoderConfig | VideoFrame | AudioFrame | StylusInputBatch | MouseInput
    | KeyboardInput | ClipboardMessage | LatencyPing | LatencyPong | ErrorMessage | Disconnect
    | TouchInputBatch | GamepadInput | SessionKeyExchange | SessionKeyConfirm | PairingChallenge

  datatype Peer = Peer(ip: nat, port: u16)

  /** `B` is the payload: bytes on the wire, symbolic message bodies in the router. */
  datatype TransportPacket<B> = TransportPacket(
    sequence: u64,
    channel: ChannelKind,
    messageKind: MessageKind,
    enqueueTimestampUs: u64,
    payload: B)
}
