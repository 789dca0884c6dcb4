# Verification of GlyphRay's transport and session layers

GlyphRay is a remote desktop over UDP. This project models the parts of it that move bytes and keep
state, and proves what they promise:

- **Fragments and datagrams.** Video access units are cut into `GLYF` fragments, carried in `GLYT`
  datagrams and put together again under loss, reordering, duplication and interleaving
  (`Fragment`, `Datagram`, `Video`, `MacVideo`).
- **The sealed channel.** Send counters, nonces, replay windows and the `GLYE` wire form (`Replay`,
  `SecureChannel`). The window exists in Rust, Kotlin and Swift; all three are modelled and compared.
- **The host.** Sessions, admission, pairing codes, key exchange, routing, polling and flushing
  (`Sessions`, `Admission`, `Router`, `Runtime`, `Outbound`), each as a class whose methods are proved
  against functions on values. `HostRun` lets the program make every call in any order; `InputRuns`,
  `SecureRuns`, `ExchangeRuns`, `SealRuns`, `OpenRuns`, `PairingRuns`, `AttemptRuns`,
  `AuthRuns`, `DecisionRuns`, `GrantRuns`, `KeyRuns`, `ConfirmRuns`, `PlainRuns`, `MediaRuns` and
  `LoadRuns` prove what holds over all such runs; `Example` and `AttemptExample` give runs where a promise
  fails or a bound is reached. `RouteLaws`, `PairingLaws`, `ReplyLaws` and `PollLaws` say of each kind of
  packet and call what becomes of the fields, events, answers and counters.
- **Formats.** `GLYH` handshake messages and signed payloads (`SessionWire`), protocol frames
  (`ProtocolFrame`), `GLYS` stylus batches (`StylusWire`), and the settings file with its store
  (`Text`, `SortedList`, `Settings`, `SettingsRoundTrip`, `SettingsOrder`, `SettingsStore`, `StoreLaws`,
  `ReadingLaws`). `WireForms` and `WireErrors` give every form, and every refusal, byte by byte.
- **Loops over bytes and pixels.** BGRA rotation (`Rotate`), length-prefixed H.264 to the byte stream
  of Annex B of ITU-T H.264 (`AnnexB`), and the key-frame scan (`Keyframe`).

Verify everything with `dafny verify dfyconfig.toml`.

## How the model is set up

Everything a call reads from outside is an argument: clock readings, the order in which a hash map
lists its entries, random salts, codes and ids, and what the socket does with each send (`Env`,
`PollInput`, `Fate`). CRC-32, SHA-256, signature checks and key agreement are arbitrary functions.
Authenticated encryption is symbolic: a sealed text is a value naming its key, nonce, associated data
and plaintext, and opens only under all of them; a key is the inputs it was derived from. 32-bit floats
are carried as bit patterns. Fixed-width integers are subset types, and wrapping, truncating and
saturating steps are written out.

Where a promise turned out not to hold of the code on all inputs, the code is modelled as it is and the
exact condition is proved:

- The replay guard follows its specification until `u64::MAX` is accepted (`GuardDecidesAsSpecified`; it
  is stuck after that counter, `StuckAtMaximum`), and the three windows part on known counters only
  (`RustAndSwiftAgree`, `KotlinAndSwiftAgree`).
- The fixed-window limiter keeps to twice its limit over runs of fewer than 2^32 plus the limit checks,
  and not over longer ones, since its counter wraps (`FixedWindowExact`, `WrapBreaksBound`).
- Once a peer is secure, all that is flushed to it is sealed, but the notices of an operator action
  (approval, rejection, challenge, pairing code) still go to it in plain: exactly those do
  (`SecureBothWays`, `PlainExactlyNotices`, `PlainToSecurePeer`).
- A pairing request replaces the key also of an approved session, so a session is secured under the key
  it was approved with exactly when its last pairing request since, if any, carried that key
  (`KeyBinding`, `SecuredUnderAnotherKey`).
- A failed confirmation spends the offer of a key exchange, and then input is let through in plain again:
  exactly while the peer is not secure and no offer is pending (`PlainInputExactly`, `PlainAfterFailure`,
  `InputInPlain`).
- At most ten pairing attempts of a peer are counted in two minutes while it keeps its session and does
  not prove the code (`AttemptsInTime`, reached by `TenInTwoMinutes`), but not across a success
  (`FourteenAcrossSuccess`).
- The order of the hash map decides between two keys that name one field and differ
  (`GroupsSettled`, `OrderIrrelevant`, `OrderDecides`).
- Nonces under one key differ exactly up to 2^64 seals under it (`NoncesDifferExactly`): the counter wraps.
- The Swift sender has no size limit, so its datagrams all decode exactly when the largest fragment is
  one the Rust encoder takes (`Packetize`, `FitsExactly`).
- The client signing payload is unambiguous exactly up to device ids of 65,535 bytes
  (`ClientPayloadBound`); the decoder stops at 4,096.
- H.264 payloads whose first length is 256 to 511, or 1, are taken for byte streams
  (`NormalizesToByteStream`, `LongUnitMistaken`), which the macOS host does not do (`HostsAgree`).
- Settings with a device key over 4,096 bytes are written but cannot be read back, and out-of-range
  encoder fields come back clamped (`ReadsBackWritten`, `RoundTripExact`, `LongKeyRefused`). A label with
  a character across byte 80 makes normalization panic (`LabelPanics`, `LongLabelPanics`).

## Model

| member | source | states |
|---|---|---|
| Fragment.FragmentFrame | crates/transport/src/fragment.rs:15-50 | cuts a frame into exactly the specified fragments; refuses a zero size and more than 65,535 parts |
| Fragment.FragmentsSpellPayload | crates/transport/src/fragment.rs:15-50 | for every fragment size the indices are 0, 1, … of one count and the payloads in order spell the frame; an empty frame has one empty fragment |
| Fragment.FragmentRoundTrip | crates/transport/src/fragment.rs:52-95 | the decoder returns a fragment for exactly the images of that fragment |
| Fragment.FrameReassembler.Push | crates/transport/src/fragment.rs:103-149 | stores, rejects or emits as specified, for any fragment, also inconsistent ones |
| Fragment.PushDecides | crates/transport/src/fragment.rs:103-149 | each refusal, and otherwise which slot is filled, that a filled slot keeps its first payload, and when the frame is complete |
| Fragment.PushKeepsValid | crates/transport/src/fragment.rs:103-173 | after every push each stored frame has at least one slot filled and at least one empty, and `received` counts the filled ones |
| Fragment.Reassembly | crates/transport/src/fragment.rs:97-173 | over every delivery of fragments of distinct frames, reordered, repeated, lost and interleaved, a push never fails and emits the payload of its frame exactly when the fragments seen since the last emission cover all indices |
| Fragment.FirstEmission | crates/transport/src/fragment.rs:97-149 | nothing is emitted before every index of the frame has arrived at least once |
| Datagram.EncodePacketInto | crates/transport/src/udp.rs:174-194 | fills the caller's buffer with the datagram, or refuses an oversized payload and leaves the buffer alone |
| Datagram.PacketRoundTrip | crates/transport/src/udp.rs:174-260 | the decoder returns a packet for exactly that packet's datagram: layout, lengths, kinds, channel and checksum |
| Video.AccessUnitRoundTrip | crates/transport/src/video.rs:81-145 | the envelope decoder returns a unit for exactly that unit's envelope, for payloads below 2^32 bytes |
| Video.VideoPacketizer.Packetize | crates/transport/src/video.rs:34-54 | one packet per fragment of the envelope, on the video channel, under the unit's sequence and capture time |
| Video.VideoReassembler.PushPacket | crates/transport/src/video.rs:62-78 | refuses a packet of another kind or channel with an error, and otherwise decodes, pushes and opens the envelope |
| Video.OnlyVideoPushed | crates/transport/src/video.rs:62-78 | a packet is refused as no video frame exactly if its kind or its channel is another, and then nothing is touched |
| Video.EndToEnd | crates/transport/src/video.rs:34-125 | over every delivery of the datagrams of any stream of units, the receiver gives back exactly the unit sent when its last missing datagram arrives, and nothing before |
| MacVideo.MacVideoTransportPacketizer.Packetize | hosts/macos-host/Sources/GlyphRayMacHost/MacVideoTransportPacketizer.swift:51-161 | the Swift sender emits, datagram by datagram, the layout of the unit's packets, and all of it decodes exactly if the largest fragment fits 60,000 bytes |
| Video.FitsExactly | crates/transport/src/udp.rs:174-194 | the datagrams of a unit all decode, and the Rust encoder refuses none, exactly if its largest fragment fits 60,000 bytes |
| WireForms.DatagramForm | crates/transport/src/udp.rs:174-194 | where each number of a datagram stands, and in which order of bytes |
| WireForms.FragmentForm | crates/transport/src/fragment.rs:52-61 | the same for a fragment |
| WireForms.UnitForm | crates/transport/src/video.rs:81-90 | the same for a video unit |
| WireForms.FrameForm | crates/protocol/src/lib.rs:157-173 | the same for a protocol frame |
| WireForms.SealedForm | crates/transport/src/secure.rs:16-28 | the same for a sealed datagram |
| WireForms.BatchHeadForm | crates/protocol/src/stylus_wire.rs:26-63 | the same for the head of a stylus batch |
| WireForms.SampleForm | crates/protocol/src/stylus_wire.rs:26-63 | the same for the numbers of a stylus sample |
| WireForms.SampleBytesForm | crates/protocol/src/stylus_wire.rs:26-63 | its tool, action, flags and padding |
| WireForms.ServerForm | crates/protocol/src/session_wire.rs:48-64 | the same for a key exchange |
| WireForms.ClientForm | crates/protocol/src/session_wire.rs:85-97 | the same for a key confirmation |
| WireForms.ServerPayloadForm | crates/protocol/src/session_wire.rs:115-123 | what the host signs, field by field |
| WireForms.ClientPayloadForm | crates/protocol/src/session_wire.rs:129-140 | what a client signs, field by field |
| WireErrors.DatagramRefused | crates/transport/src/udp.rs:196-260 | a datagram is refused with the error of the first check that fails, and otherwise read |
| WireErrors.FragmentRefused | crates/transport/src/fragment.rs:63-95 | the same for a fragment |
| WireErrors.UnitRefused | crates/transport/src/video.rs:92-125 | the same for a video unit |
| WireErrors.FrameRefused | crates/protocol/src/lib.rs:175-215 | the same for a protocol frame, for any codec of its bodies |
| WireErrors.SealedRefused | crates/transport/src/secure.rs:29-56 | the same for a sealed datagram |
| WireErrors.HandshakeHeadRefused | crates/protocol/src/session_wire.rs:163-178 | the same for the head of a handshake message |
| WireErrors.BatchHeadRefused | crates/protocol/src/stylus_wire.rs:65-90 | the same for the head of a stylus batch |
| WireErrors.SamplesRefused | crates/protocol/src/stylus_wire.rs:90-146 | the samples are read exactly if every tool and every action is known |
| Replay.ReplayGuard.Accept | crates/security/src/lib.rs:347-369 | decides and updates as the guard function, which is proved against the specification |
| Replay.GuardStepRefines | crates/security/src/lib.rs:347-369 | one step keeps the stored window representing the whole history, and accepts what the unbounded specification accepts, below `u64::MAX` |
| Replay.WindowIsBounded | crates/security/src/lib.rs:338-370 | a window that represents a history stores at most its size of counters |
| Replay.AtMostOnce | crates/security/src/lib.rs:338-370 | for every stream of 64-bit counters, saturation included, no counter is accepted twice |
| Replay.GuardDecidesAsSpecified | crates/security/src/lib.rs:347-369 | after every stream, the decision on the next offer is "never accepted and above highest minus window", unless `u64::MAX` has been accepted |
| Replay.GuardRefinesSpecification | crates/security/src/lib.rs:338-370 | on every stream without `u64::MAX` the guard accepts exactly what the unbounded specification accepts |
| Replay.AndroidReplayWindow.Open | apps/android-client/src/main/java/com/glyphray/android/network/SecureSessionCodec.kt:193-231 | check, decrypt, record in 64-bit signed arithmetic, as specified |
| Replay.MacReplayWindow.Open | hosts/macos-host/Sources/GlyphRayMacHost/MacSecureSession.swift:195-244 | check, decrypt, record, as specified |
| Replay.RustAndSwiftAgree | hosts/macos-host/Sources/GlyphRayMacHost/MacSecureSession.swift:226-244 | from a common state the two differ on a datagram exactly under the stated condition on counter and state |
| Replay.KotlinAndSwiftAgree | apps/android-client/src/main/java/com/glyphray/android/network/SecureSessionCodec.kt:217-231 | Kotlin and Swift differ exactly on authentic unseen counters beyond the signed maximum, or within the window below it |
| Replay.StuckAtMaximum | crates/security/src/lib.rs:347-369 | once `u64::MAX` was accepted the counter below it, fresh by the specification, is refused |
| Replay.ThreeWindowsAgree | crates/transport/src/secure.rs:79-91 | on every run of counters from 1 to 2^63-1-4096 with any verdicts, the three accept the same datagrams and keep the same state |
| SecureChannel.DirectionsPair | crates/security/src/lib.rs:310-329 | a host's outbound key is a client's inbound key exactly for the same secret and transcript, and never a host's inbound key |
| SecureChannel.NonceInjective | crates/security/src/lib.rs:386-391 | different counters have different nonces |
| SecureChannel.NoncesDistinct | crates/transport/src/secure.rs:67-77 | the first n seals of a codec use pairwise different nonces exactly when n is at most 2^64 |
| SecureChannel.SecureDatagramCodec.Open | crates/transport/src/secure.rs:79-91 | delivers exactly what authenticates and is fresh; a rejected datagram changes nothing |
| SecureChannel.AuthenticAtMostOnce | crates/transport/src/secure.rs:58-92 | over every run with a network that copies, reorders, drops and forges: no counter is delivered twice and each text delivered is the one sealed under its counter |
| SecureChannel.GenuinePacketAccepted | crates/transport/src/secure.rs:58-92 | after every such run, a genuine packet not yet delivered and within the window is accepted |
| SecureChannel.SealedDatagramRoundTrip | crates/transport/src/secure.rs:16-56 | the `GLYE` decoder returns a packet for exactly that packet's datagram |
| Outbound.OutboundPacketQueues.Push | hosts/windows-host/src/backend.rs:1841-1855 | appends to the packet's channel, dropping the oldest of a full queue, and updates the counters |
| Outbound.OutboundPacketQueues.PopNext | hosts/windows-host/src/backend.rs:1873-1883 | takes the head of the first non-empty queue in schedule order from the cursor, and moves the cursor behind that slot |
| Outbound.PopsUnlessEmpty | hosts/windows-host/src/backend.rs:1873-1883 | nothing is popped exactly when all four queues are empty |
| Outbound.PushFrontRestores | hosts/windows-host/src/backend.rs:1857-1871 | putting back what was just popped restores all four queues and drops nothing |
| Outbound.PutBackFirst | hosts/windows-host/src/backend.rs:1857-1871 | a packet put back goes first; from a full queue the last packet is dropped, and counted |
| Outbound.ServiceBound | hosts/windows-host/src/backend.rs:44-53 | from any cursor and with any interleaved pushes a waiting control packet is served within 3 pops, input within 4, audio and video within 8 |
| Outbound.WeightedService | hosts/windows-host/src/backend.rs:1873-1883 | eight pops of backlogged queues serve exactly 3 input, 3 control, 1 audio and 1 video, from any cursor |
| Outbound.Conservation | hosts/windows-host/src/backend.rs:1840-1914 | over every run of queue operations each channel stays first-in first-out, pushed is sent plus dropped plus lost plus queued, and the high watermark is the greatest total reached, at most 512 |
| SessionWire.EncodeServerKeyExchange | crates/protocol/src/session_wire.rs:48-64 | the wire image, or a refusal of any oversized field |
| SessionWire.DecodeServerKeyExchange | crates/protocol/src/session_wire.rs:66-83 | accepts exactly the encoder's images, whatever the reserved byte, and inverts them |
| SessionWire.EncodeClientKeyConfirm | crates/protocol/src/session_wire.rs:85-97 | the wire image, or a refusal of any oversized field |
| SessionWire.DecodeClientKeyConfirm | crates/protocol/src/session_wire.rs:99-113 | accepts exactly the encoder's images of confirmations whose device id is text, and inverts them |
| SessionWire.ServerPayloadInjective | crates/protocol/src/session_wire.rs:115-123 | two server payloads are equal exactly if every field they cover is |
| SessionWire.ClientPayloadInjective | crates/protocol/src/session_wire.rs:129-140 | two client payloads with device ids within the prefix are equal exactly if every field they cover is |
| SessionWire.ClientPayloadBound | crates/protocol/src/session_wire.rs:129-140 | two different confirmations with device ids of at most a bound sign alike exactly if the bound exceeds 65,535 |
| SessionWire.TrustedPayloadInjective | crates/protocol/src/lib.rs:217-232 | two trusted-device payloads are equal exactly if device, id and nonce are |
| SessionWire.DomainsSeparate | crates/protocol/src/session_wire.rs:115-140 | no payload of one of the three kinds is a payload of another |
| SessionWire.TranscriptDetermines | crates/protocol/src/session_wire.rs:142-152 | the bytes hashed into the session transcript determine every field both payloads cover |
| ProtocolFrame.EncodeFrame | crates/protocol/src/lib.rs:157-173 | the frame, or a refusal of what does not serialize or is over 16 MiB |
| ProtocolFrame.FrameRoundTrip | crates/protocol/src/lib.rs:157-215 | the decoder returns a frame for exactly the images whose header kind, length and checksum are those of the bytes that deserialize to its message |
| StylusWire.EncodeStylusBatch | crates/protocol/src/stylus_wire.rs:26-63 | 28 bytes and 58 per sample, or a refusal of more than 65,535 samples |
| StylusWire.DecodeStylusBatch | crates/protocol/src/stylus_wire.rs:65-146 | reads the batch, or the first error, as specified, with every offset in bounds |
| StylusWire.BatchRoundTrip | crates/protocol/src/stylus_wire.rs:26-146 | decoding yields a batch on exactly the strings that are its encoding up to reserved header bytes, unused flag bits and padding |
| AnnexB.NormalizeH264AccessUnit | hosts/windows-host/src/encoder/media_foundation.rs:786-813 | converts, or returns the payload unchanged, as specified |
| AnnexB.AppendAnnexBNalUnits | hosts/macos-host/Sources/GlyphRayMacHost/VideoToolboxEncoder.swift:381-404 | appends each unit behind a start code and succeeds exactly on non-empty payloads of whole units |
| AnnexB.NormalizesToByteStream | hosts/windows-host/src/encoder/media_foundation.rs:786-813 | units reach the stream behind start codes exactly if the first length is not 256 to 511, nor 1 unless all are |
| AnnexB.LongUnitMistaken | hosts/windows-host/src/encoder/media_foundation.rs:786-813 | a unit of 256 bytes does not reach the stream behind a start code |
| AnnexB.NormalizationStable | hosts/windows-host/src/encoder/media_foundation.rs:786-813 | what is not whole units comes back unchanged, and a second normalization changes nothing, on all inputs |
| AnnexB.HostsAgree | hosts/macos-host/Sources/GlyphRayMacHost/VideoToolboxEncoder.swift:381-404 | the two hosts convert alike exactly where the start-code check makes no difference |
| Keyframe.ContainsIdr | hosts/windows-host/src/encoder/media_foundation.rs:815-833 | the index loop computes the scan, never reading outside the payload |
| Keyframe.IdrFound | hosts/windows-host/src/encoder/media_foundation.rs:815-833 | on every byte stream of units without inner start codes the scan finds an IDR slice exactly if some unit is one |
| Rotate.RotateBgra | hosts/windows-host/src/capture/desktop_duplication.rs:362-387 | the loops produce the rotated frame, with every index in bounds, for 4wh below 2^32 |
| Rotate.TargetInverse | hosts/windows-host/src/capture/desktop_duplication.rs:371-384 | every pixel stays in the frame, and the inverse rotation brings it back: a bijection |
| Rotate.PixelsTurn | hosts/windows-host/src/capture/desktop_duplication.rs:371-384 | by coordinates: a quarter turn takes column x of row y to column height - 1 - y of row x, the other way to column y of row width - 1 - x, a half turn to the opposite place, and any other rotation nowhere |
| Rotate.RestIsZero | hosts/windows-host/src/capture/desktop_duplication.rs:366-385 | bytes past the last pixel come out zero |
| Rotate.RotationUndone | hosts/windows-host/src/capture/desktop_duplication.rs:362-395 | rotating by 90 then 270 on the swapped dimensions, or twice by 180, restores the frame |
| Rotate.QuarterTurnTwice | hosts/windows-host/src/capture/desktop_duplication.rs:362-395 | two quarter turns are one half turn |
| Sessions.SessionRegistry.EnsurePendingSession | hosts/windows-host/src/backend.rs:212-237 | adds a pending session for an unknown peer, evicting if full, and leaves a known one alone |
| Sessions.SessionRegistry.EvictOldestPendingIfNeeded | hosts/windows-host/src/backend.rs:392-406 | removes the pending session seen least recently when fifty are pending |
| Sessions.SessionRegistry.AllowNewPendingPeer | hosts/windows-host/src/backend.rs:197-210 | drops attempts older than the window and admits below twelve |
| Sessions.SessionRegistry.AcceptInputWatermark | hosts/windows-host/src/backend.rs:281-304 | accepts exactly a greater sequence with no smaller timestamp, and then records both |
| Sessions.OnlyPendingEvicted | hosts/windows-host/src/backend.rs:392-406 | every session past pending is untouched by the arrival of a new peer |
| Sessions.PendingBounded | hosts/windows-host/src/backend.rs:392-406 | fifty pending sessions stay fifty, and the one evicted was seen least recently |
| Sessions.FirstOfOldest | hosts/windows-host/src/backend.rs:392-406 | of those seen least recently, the one evicted is listed first |
| Admission.AdmissionBound | hosts/windows-host/src/backend.rs:197-210 | with a monotone clock any closed ten-second interval holds at most 12 admissions of one address |
| Admission.AdmittedExactly | hosts/windows-host/src/backend.rs:197-210 | an attempt is let in exactly if fewer than twelve of its address were in the ten seconds before |
| Admission.PairingRateLimiter.Check | crates/security/src/lib.rs:147-167 | one fixed-window check, the 32-bit counter wrapping |
| Admission.FixedWindowBound | crates/security/src/lib.rs:147-167 | at most twice the limit passes in any window-long interval, over any run of fewer than 2^32 plus the limit checks, wrapped counter included |
| Admission.FixedWindowExact | crates/security/src/lib.rs:147-167 | that bound holds of all runs of up to n checks exactly if n is below 2^32 plus the limit |
| Admission.WrapBreaksBound | crates/security/src/lib.rs:147-167 | of 2^32 plus the limit checks at one instant, twice the limit and one pass |
| Router.HostPacketRouter.RoutePacket | hosts/windows-host/src/backend.rs:958-1326 | routes every packet to the specified new state, events, answers or error |
| Router.HostPacketRouter.VerifyPairingCodeForPeer | hosts/windows-host/src/backend.rs:798-827 | spends the challenge, counts the attempt or rotates the code, in the order of the checks |
| Router.HostPacketRouter.PairingCodeChallengeWithResponse | hosts/windows-host/src/backend.rs:750-796 | refreshes an expired code, refuses after five attempts, and otherwise issues a challenge that expires with the code at the latest |
| Router.HostPacketRouter.FinishSessionKeyExchange | hosts/windows-host/src/backend.rs:892-934 | spends the pending exchange and secures the session exactly if every check passes |
| Router.HostPacketRouter.SealSecurePacket | hosts/windows-host/src/backend.rs:652-668 | spends a counter once the packet encodes, also when the cipher then fails |
| Runtime.HostBackendRuntime.FlushOutboundControl | hosts/windows-host/src/backend.rs:1798-1826 | up to eight sends, stopping at an empty queue, backpressure or an error, with the packet put back on backpressure only |
| Runtime.HostBackendRuntime.PollControl | hosts/windows-host/src/backend.rs:1591-1667 | flush, receive, screen, route, answer, flush, with the metrics and events of each |
| Runtime.HostBackendRuntime.ApprovePeerAndNotify | hosts/windows-host/src/backend.rs:1488-1517 | approves, begins an exchange and sends both notices in plain, to the first send that fails |
| Runtime.HostBackendRuntime.ChallengePeerAndNotify | hosts/windows-host/src/backend.rs:1533-1549 | challenges a session that has a key and sends the challenge in plain; the permissions are set also when there is none |
| Runtime.HostBackendRuntime.IssuePairingCodeChallenge | hosts/windows-host/src/backend.rs:1551-1564 | issues a pairing challenge and sends it in plain, or refuses |
| Runtime.HostBackendRuntime.RejectPeerAndNotify | hosts/windows-host/src/backend.rs:1574-1589 | rejects, and sends the notice in plain |
| Runtime.HostBackendRuntime.QueueMediaPackets | hosts/windows-host/src/backend.rs:1704-1758 | queues every packet for every approved and secure peer, peer by peer |
| MediaRuns.MediaReaches | hosts/windows-host/src/backend.rs:340-352 | a batch of media goes only to peers approved and secure then; each of them listed once gets exactly the packets in order, every other peer none |
| PollLaws.FlushCarries | hosts/windows-host/src/backend.rs:1798-1826 | a flush hands over the queue's own packets from its head on, in order, up to the first not taken, each under its peer's key if that is secure |
| PollLaws.AttemptDoes | hosts/windows-host/src/backend.rs:1798-1826 | one attempt: when a counter is spent, what is counted and reported, and that only a socket that would block puts the packet back |
| PollLaws.ScreeningDecides | hosts/windows-host/src/backend.rs:1599-1642 | which datagrams in plain pass the screening, which sealed ones, and why the others do not |
| PollLaws.PollWithoutPacket | hosts/windows-host/src/backend.rs:1591-1598 | a poll whose first flush fails, or that reads nothing or no packet |
| PollLaws.PollScreensOut | hosts/windows-host/src/backend.rs:1599-1642 | a packet screened out is counted and reported, and nothing else happens |
| PollLaws.PollRoutesAndAnswers | hosts/windows-host/src/backend.rs:1643-1667 | a packet routed: what is queued, counted, flushed and reported, and that an error reports nothing |
| InputRuns.SecureForever | hosts/windows-host/src/backend.rs:392-406 | a peer with a secure session has one for the rest of every run |
| InputRuns.InputAuthorized | hosts/windows-host/src/backend.rs:1142-1326 | every packet: input is let through only from an approved session allowed its kind, ahead of its watermark, and events report input only if it was |
| InputRuns.PollReports | hosts/windows-host/src/backend.rs:1591-1667 | every input event a poll returns is of the input it let through |
| InputRuns.InputOrdered | hosts/windows-host/src/backend.rs:281-304 | over every run, of two accepted inputs of a peer the later has the greater sequence and no smaller timestamp, and both were authorized |
| RouteLaws.InputLetThrough | hosts/windows-host/src/backend.rs:1184-1326 | input an approved session allows, with a greater sequence and no smaller timestamp, moves the watermark and is reported as injected or decoded, unless injecting fails |
| RouteLaws.LateInputIgnored | hosts/windows-host/src/backend.rs:281-304 | other allowed input is late, and changes nothing |
| RouteLaws.ForbiddenInput | hosts/windows-host/src/backend.rs:363-375 | input the session does not allow is refused, whatever it holds |
| RouteLaws.MalformedInput | hosts/windows-host/src/backend.rs:1184-1326 | allowed input whose body is of another kind fails |
| RouteLaws.PingAnswered | hosts/windows-host/src/backend.rs:1328-1358 | a ping is answered with its own number and time and the host's, under the next sequence number |
| RouteLaws.ConfigKept | hosts/windows-host/src/backend.rs:1214-1228 | an encoder configuration is kept as sent |
| RouteLaws.OthersReported | hosts/windows-host/src/backend.rs:1183-1326 | other packets of an approved peer are only reported |
| RouteLaws.PendingWaits | hosts/windows-host/src/backend.rs:1142-1155 | packets of a peer that waits for the operator change nothing |
| RouteLaws.PendingApprovedAtOnce | hosts/windows-host/src/backend.rs:1142-1155 | under the development policy they approve it, under its name or one of its address |
| RouteLaws.UnknownTurnedAway | hosts/windows-host/src/backend.rs:958-975 | an unknown peer that is not admitted gets no session |
| RouteLaws.UnknownWaits | hosts/windows-host/src/backend.rs:212-237 | one that is admitted gets a pending session with all permissions and nothing else |
| SecureRuns.FlushSealed | hosts/windows-host/src/backend.rs:1798-1826 | all that a flush hands to the socket for a secure peer is sealed under that session's outbound key |
| SecureRuns.SecurePeerRoutedSealed | hosts/windows-host/src/backend.rs:1591-1667 | a packet routed for a secure peer came sealed and opened under that session's inbound key |
| SecureRuns.SecureBothWays | hosts/windows-host/src/backend.rs:635-668 | from the moment a peer is secure, at every later step of every run, what is flushed to it is under the key of its session then, what is sent to it in plain are exactly the notices, and what is routed for it opened under its session |
| SecureRuns.PlainExactlyNotices | hosts/windows-host/src/backend.rs:1482-1589 | a step sends to a secure peer in plain exactly if it approves and notifies it, rejects it, challenges it with a key on record, or issues it a challenge with attempts left |
| Example.PlainToSecurePeer | hosts/windows-host/src/backend.rs:1574-1589 | a run from a fresh start in which a secure peer is sent a notice in plain |
| AuthRuns.ApprovedOrProven | hosts/windows-host/src/backend.rs:1084-1140 | over every run under `RequireApproval` a session becomes approved only by the operator, or by an answer that passes for a challenge issued to that peer |
| AuthRuns.AnswersChallenge | hosts/windows-host/src/backend.rs:1959-1989 | over every run an answer is to the peer's last challenge, with no other answer or pairing request in between, and is accepted exactly if id and device match, at most thirty seconds have gone by and the signature is under the key challenged |
| AuthRuns.AnsweredOnce | hosts/windows-host/src/backend.rs:1084-1140 | no challenge is answered twice: a peer's later answer is to a challenge issued after the earlier one |
| DecisionRuns.RejectionHolds | hosts/windows-host/src/backend.rs:255-257 | over every run, from the step in which the operator rejects a peer it is rejected until the operator approves it; nothing of it is let through or answered meanwhile, and what it sends is reported only as dismissed |
| DecisionRuns.FailedAnswerRejects | hosts/windows-host/src/backend.rs:1125-1139 | the same after an answer that does not pass for its challenge |
| DecisionRuns.UnaskedAnswerRejects | hosts/windows-host/src/backend.rs:1959-1965 | the same after an answer of a peer that holds no challenge |
| DecisionRuns.PassingAnswerAdmits | hosts/windows-host/src/backend.rs:1094-1124 | after one that passes the peer is approved as the device challenged, with the permissions it had, and offered a key exchange |
| DecisionRuns.OthersLeaveStanding | hosts/windows-host/src/backend.rs:958-1326 | no step that is not about a peer changes its session but for its channel's counters and a voided pairing challenge; only a pending one can go |
| GrantRuns.InputAsGranted | hosts/windows-host/src/backend.rs:243-253 | over every run, an approval makes the peer approved as that device, and input of it let through later is of a kind the permissions granted last allow |
| GrantRuns.StepGrants | hosts/windows-host/src/backend.rs:377-390 | after any step a session has the permissions the step grants it or its device, those it had, or, when new, all |
| ReplyLaws.AnswerReplied | hosts/windows-host/src/backend.rs:1084-1140 | the session, the events and the packets after an answer, with the first reason why it fails |
| ReplyLaws.ConfirmationReplied | hosts/windows-host/src/backend.rs:1157-1163 | a confirmation that answers the offer is reported, any other fails; only offer and channel change |
| ReplyLaws.DevPairingWelcomes | hosts/windows-host/src/backend.rs:1012-1045 | a pairing request under the development policy approves at once and is welcomed |
| ReplyLaws.ApprovalWelcomes | hosts/windows-host/src/backend.rs:691-709 | an approval sets what it names, and sends the result and the very offer the session holds |
| ReplyLaws.RejectionRefuses | hosts/windows-host/src/backend.rs:837-845 | a rejection sets the permission and sends the refusal |
| ReplyLaws.ChallengeHeld | hosts/windows-host/src/backend.rs:711-748 | the challenge sent is the one held, for the device named, of that moment, under the key on record |
| AuthRuns.KeyFollowsRequests | hosts/windows-host/src/backend.rs:993-1014 | over every run a session past pending has the key of its last pairing request since, or the key it had |
| KeyRuns.OnlyRoutingSecures | hosts/windows-host/src/backend.rs:892-934 | whatever the step, a peer that is secure after it and was not before, or has another session id or other keys, got that session from what a poll routed |
| KeyRuns.SecuredByConfirmation | hosts/windows-host/src/backend.rs:892-934 | over every run under `RequireApproval`, whatever the step, a session is secured or secured anew only while approved, and by a confirmation a poll routes that is signed under its key then |
| KeyRuns.KeyBinding | hosts/windows-host/src/backend.rs:892-934 | and that is the key the session had when decided exactly if its last pairing request since, if any, carried it |
| ConfirmRuns.OfferMade | hosts/windows-host/src/backend.rs:847-890 | over every run an offer was made in an earlier step about that peer, with what that step drew, for thirty seconds, signed by the host, and has been the peer's last since |
| ConfirmRuns.ConfirmedInTime | hosts/windows-host/src/backend.rs:892-934 | over every run a confirmation routed for an approved peer with an offer secures it exactly if it comes within thirty seconds of the step that made the offer, is for the id that step drew and the session's device, is signed under its key, and agreement succeeds; otherwise the channel stays as it was; the offer is spent |
| ConfirmRuns.SecuredInTime | hosts/windows-host/src/backend.rs:892-934 | over every run under `RequireApproval` nothing else secures a peer, or secures it anew |
| Example.SecuredUnderAnotherKey | hosts/windows-host/src/backend.rs:993-1014 | a run from a fresh start in which a session approved under one key is secured under another |
| PlainRuns.PlainInputExactly | hosts/windows-host/src/backend.rs:1591-1630 | input in plain that its approved session allows, ahead of its watermark, is let through exactly if the peer is not secure and no offer of a key exchange to it is pending |
| PlainRuns.LetThroughInPlain | hosts/windows-host/src/backend.rs:1591-1667 | whatever input a poll lets through under `RequireApproval` came in plain exactly if the peer is not secure, and then no offer was pending |
| PlainRuns.PlainAfterFailure | hosts/windows-host/src/backend.rs:892-934 | over every run under `RequireApproval`, input of a peer that was offered a key exchange is let through in plain only after its last offer was spent on a confirmation that failed |
| Example.InputInPlain | hosts/windows-host/src/backend.rs:892-934 | a run from a fresh start in which input in plain is let through from a peer that was offered a key exchange |
| ExchangeRuns.EstablishedId | hosts/windows-host/src/backend.rs:916-934 | both keys of an established session name, in their transcript, the id of the exchange it answers |
| ExchangeRuns.RouteMoves | hosts/windows-host/src/backend.rs:958-1326 | routing any packet leaves every session's offer as it was or, for the sender only, newly drawn, and every secure session as it was or the completed offer |
| ExchangeRuns.HostStepMoves | hosts/windows-host/src/backend.rs:670-890 | the same for every operator action |
| SealRuns.SealLogOwned | hosts/windows-host/src/backend.rs:847-934 | a drawn session id belongs to one peer, is an unused offer or the one session of its id, and that session's next counter follows from the number of seals under its key |
| SealRuns.NoCounterReused | hosts/windows-host/src/backend.rs:1798-1826 | over every run with distinct drawn ids, two seals under one key have different nonces while fewer than 2^64 were made under it, the later the greater counter, re-seals after backpressure and failed seals included |
| SealRuns.SealCounters | hosts/windows-host/src/backend.rs:652-668 | over every such run each seal uses the counter its place among the seals under its key gives, wrap-around included |
| SealRuns.NoncesDifferExactly | hosts/windows-host/src/backend.rs:652-668 | the nonces under a key all differ exactly if at most 2^64 seals were made under it |
| SealRuns.NoNonceRepeatsOnTheWire | hosts/windows-host/src/backend.rs:1798-1826 | hence no two sealed datagrams among all that is handed to the socket share key and nonce while at most 2^64 seals were made under it, as section 8 of NIST SP 800-38D requires |
| OpenRuns.OpenLogRemembered | hosts/windows-host/src/backend.rs:635-650 | over every run, a session's guard represents every counter ever accepted under its key |
| OpenRuns.NoCounterAcceptedTwice | hosts/windows-host/src/backend.rs:635-650 | over every run with distinct drawn ids, no counter is accepted twice under one key |
| OpenRuns.NeverRoutedTwice | hosts/windows-host/src/backend.rs:1591-1667 | no sealed text is routed twice in any run, whatever peers present it, whatever counters they put on it and however often sessions are keyed again |
| PairingRuns.HeldChallenges | hosts/windows-host/src/backend.rs:750-835 | over every run, a challenge a session holds was issued to that peer under the code now current and expires no later than it |
| PairingRuns.SpentChallenges | hosts/windows-host/src/backend.rs:798-827 | a challenge spent was issued to that peer under the code then current; a success proves that code and salt before both expired |
| PairingRuns.SpentOnce | hosts/windows-host/src/backend.rs:798-835 | two spendings have different issues, and a success voids everything issued before it |
| PairingRuns.VerifiedBySuccess | hosts/windows-host/src/backend.rs:798-827 | a session comes to count as verified only by a success of that peer in that step |
| PairingRuns.AttemptsBounded | hosts/windows-host/src/backend.rs:1940-1947 | no session ever counts more than five attempts |
| PairingLaws.ProofDecides | hosts/windows-host/src/backend.rs:798-827 | a proof succeeds exactly if an attempt is left, a challenge is held, neither it nor the code has expired, and it is of that code and salt; and what success and each failure change |
| PairingLaws.IssueDecides | hosts/windows-host/src/backend.rs:750-796 | a challenge lasts two minutes and no longer than the code, which is replaced, for five minutes, if it had expired |
| PairingLaws.RequestWaits | hosts/windows-host/src/backend.rs:993-1055 | a request without proof names device and key and waits |
| PairingLaws.RequestProved | hosts/windows-host/src/backend.rs:1058-1082 | a request with a proof is reported as verified or answered with a refusal and the attempts left |
| AttemptRuns.AttemptsInTime | hosts/windows-host/src/backend.rs:1940-1947 | over every run whose clock never goes back, in any stretch in which a peer keeps its session and does not prove the code, at most ten of its attempts are counted in any closed two minutes |
| AttemptExample.TenInTwoMinutes | hosts/windows-host/src/backend.rs:798-827 | such a stretch with ten attempts in two minutes |
| AttemptExample.FourteenAcrossSuccess | hosts/windows-host/src/backend.rs:798-827 | fourteen attempts in two minutes of a peer that keeps its session and proves the code in between |
| LoadRuns.NothingUnaccounted | hosts/windows-host/src/backend.rs:1776-1826 | over every run queued is sent plus dropped plus still queued plus one per failed flush, channels stay in order, and at most 512 ever wait |
| LoadRuns.NeverCrowded | hosts/windows-host/src/backend.rs:392-406 | over every run at most fifty sessions are pending |
| LoadRuns.AdmittedBySlidingWindow | hosts/windows-host/src/backend.rs:958-975 | a packet of an unknown peer creates its session exactly if the run's sliding window of its address admits it |
| LoadRuns.AdmissionsBounded | hosts/windows-host/src/backend.rs:197-210 | over every run with a monotone clock, at most 12 peers of one address are admitted in any closed ten seconds |
| Text.HexRoundTrip | hosts/windows-host/src/settings.rs:614-651 | bytes survive hexadecimal exactly if there are at most 4,096 |
| Text.FromHexImage | hosts/windows-host/src/settings.rs:624-651 | every accepted text spells, up to case, the bytes it decodes to |
| Text.DecimalRoundTrip | hosts/windows-host/src/settings.rs:670-678 | a number is read back from its decimal exactly if its type holds it |
| Text.PlusRead | hosts/windows-host/src/settings.rs:670-678 | a leading plus changes nothing, a second one or none behind it is no number |
| ReadingLaws.LineRead | hosts/windows-host/src/settings.rs:326-342 | which lines are skipped, refused or read, and as what |
| ReadingLaws.FieldNames | hosts/windows-host/src/settings.rs:242-324 | the names of the fields |
| ReadingLaws.NameRead | hosts/windows-host/src/settings.rs:525-573 | which names and ids are accepted, as what |
| ReadingLaws.FingerprintExactly | hosts/windows-host/src/settings.rs:599-612 | which fingerprints are accepted, as what |
| ReadingLaws.DeviceReadExactly | hosts/windows-host/src/settings.rs:469-498 | a device is read exactly if its required fields are there and what is there is well formed; a missing permission is granted |
| ReadingLaws.ConfigParsed | hosts/windows-host/src/settings.rs:354-377 | whatever configuration is read, every field was there and read so, and its rates are brought into their ranges |
| ReadingLaws.OverrideNeeded | hosts/windows-host/src/settings.rs:343-352 | one key of the override makes all of its fields required |
| ReadingLaws.ApprovalRecorded | hosts/windows-host/src/settings.rs:31-51 | a device recorded on approval has what was given, normalized, and every permission |
| SortedList.UpsertMeaning | hosts/windows-host/src/settings.rs:430-440 | an upsert replaces or adds the one item of that identity, keeps all others, and leaves the list sorted and distinct |
| SortedList.SortStable | hosts/windows-host/src/settings.rs:430-440 | items with equal keys keep their order |
| SortedList.WithoutMeaning | hosts/windows-host/src/settings.rs:170-183 | a removal drops exactly the items of that identity, and reports whether there were any |
| SortedList.UpsertInto | hosts/windows-host/src/settings.rs:513-523 | overwrites the matching item or pushes, then sorts |
| SettingsStore.SerializeSettings | hosts/windows-host/src/settings.rs:242-324 | writes the header and the lines of override, presets and devices |
| SettingsStore.ParseSettings | hosts/windows-host/src/settings.rs:326-498 | reads lines, groups, presets and devices, or refuses, for every text and every hash order |
| SettingsRoundTrip.KeysDiffer | hosts/windows-host/src/settings.rs:242-324 | different fields of the settings are written under different keys |
| SettingsRoundTrip.GroupsHold | hosts/windows-host/src/settings.rs:379-400 | when every key writes its index as it is written out, a group holds exactly the values whose keys carry its index, whatever the hash order |
| SettingsOrder.GroupsSettled | hosts/windows-host/src/settings.rs:379-400 | for every text, all hash orders give the same groups exactly if grouping refuses a bad key or no two keys under the prefix name the same index and field with different values |
| SettingsOrder.OrderIrrelevant | hosts/windows-host/src/settings.rs:326-498 | then reading has the same result, refusal or panic in every hash order |
| SettingsOrder.OrderDecides | hosts/windows-host/src/settings.rs:442-463 | a text that reads as either of two settings, depending on the hash order |
| SettingsRoundTrip.ReadsBackWritten | hosts/windows-host/src/settings.rs:242-523 | normalized settings are read back as written, encoder fields clamped, in every hash order; a device key over 4,096 bytes makes the file unreadable |
| SettingsRoundTrip.RoundTripExact | hosts/windows-host/src/settings.rs:242-523 | they come back unchanged exactly if every encoder field is in range and every key fits |
| SettingsRoundTrip.LongKeyRefused | hosts/windows-host/src/settings.rs:614-651 | settings with a device key of 4,097 bytes are refused when read back |
| SettingsRoundTrip.ParsedNormal | hosts/windows-host/src/settings.rs:326-651 | whatever text is read, the settings are normalized, sorted, unique up to case and in range |
| SettingsRoundTrip.ReadStable | hosts/windows-host/src/settings.rs:242-523 | writing what was read and reading it again gives the same settings |
| SettingsRoundTrip.LabelStable | hosts/windows-host/src/settings.rs:575-593 | a normalized label is its own normal form |
| SettingsRoundTrip.LabelPanics | hosts/windows-host/src/settings.rs:575-593 | normalizing panics exactly if the label is over 80 bytes and no character ends at byte 80 |
| SettingsRoundTrip.LongLabelPanics | hosts/windows-host/src/settings.rs:575-593 | 79 letters and a two-byte character make it panic |
| SettingsRoundTrip.ApprovedNowNormal | hosts/windows-host/src/settings.rs:31-51 | a device recorded on approval is normalized, and its key kept as it is |
| SettingsStore.SavedPresetFound | hosts/windows-host/src/settings.rs:153-196 | a saved preset is found under its name in any case, and other names find what they found |
| SettingsStore.DeletedPresetGone | hosts/windows-host/src/settings.rs:170-196 | a deleted preset is found no more, and other names find what they found |
| SettingsStore.OperationsKeepNormal | hosts/windows-host/src/settings.rs:136-228 | every operation keeps settings normalized, unique and sorted |
| SettingsStore.StoreRefinesMemory | hosts/windows-host/src/settings.rs:105-228 | over every run of operations the file holds what the same operations leave in memory |
| StoreLaws.RunLeaves | hosts/windows-host/src/settings.rs:105-228 | over every run of operations the file reads as settings that hold of each device, each preset and the override exactly what the last operation that named it left |
| SettingsStore.HostSettingsStore.SaveEncoderPreset | hosts/windows-host/src/settings.rs:153-168 | returns what the operation in memory gives on what was loaded, or the failure of loading or normalizing, and saves it only on success |
| SettingsStore.HostSettingsStore.UpsertTrustedDevice | hosts/windows-host/src/settings.rs:198-206 | returns what the operation in memory gives on what was loaded, or the failure of loading or normalizing, and saves it only on success |

## Left out

- Sockets, threads, screen capture, hardware encoders, input injection, key stores, consoles and user interfaces: operating-system calls. A send is one of five fates, and an injection succeeds or fails.
- Real cryptography and CRC-32: symbolic or arbitrary functions; that keys of different inputs differ is part of the symbolic model.
- Bincode bodies and UTF-8: a message body is what the decoders return, text is bytes, and the settings file is characters; file writes are atomic.
- One call reads each clock once, where the code reads it at every use, so a code rotated inside a call starts at that call's time.
- Metrics, packet counts and list lengths are unbounded; the router keeps a session's codec as a value, not as an object.
- Key generation, signing and encoding failures inside the key exchange and the control packets do not occur: their inputs have fixed, small sizes.
- Decoding of the plaintext datagram inside a sealed one is a value that decodes or does not; `Datagram` proves the decoder.
- The settings file is parsed into fields by one function for override and presets, where the code has two copies; error messages are not modelled.
- SettingsStore.StoreRefinesMemory: stores devices that approval normalized and whose key fits, and lists within the 32-bit index; a file deleted or edited by others during the run is not modelled.
- SealRuns.NoCounterReused: for session ids that do not repeat, an assumption on random values; likewise the three rows after it.
- OpenRuns.NeverRoutedTwice: for session ids that do not repeat.
- SettingsOrder.OrderIrrelevant: one way; keys that clash in a field nothing reads, or whose values read alike, make no difference either.
- AttemptRuns.AttemptsInTime: a new session, after the old one was evicted while pending, starts its count anew.
- LoadRuns.NeverCrowded: for hash orders that list every pending peer, as iterating the map does.
- MacVideo.MacVideoTransportPacketizer.Packetize: frames of 2^32 bytes and more trap in Swift and are not passed in.
- Parameter sets that the macOS host puts before a key frame, and `bgra_to_nv12`, whose pixel formulas would only add arithmetic.
- Kotlin and Swift parsing of `GLYE` and `GLYH` headers: the same layouts as the Rust ones.
- `MacControlRuntime.swift`, relay selection, discovery, reconnection, audio sequence numbers and key tables: second copies or easy members.
- Float arithmetic (bitrate control, coordinate mapping, pressure curves): exact reals would not be the code's.
- Development auto-approval beyond one policy flag; quarantine of corrupt settings files.
