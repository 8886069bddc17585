# A verified model of an ADB host

These Dafny modules model the parts of an Android Debug Bridge host that are hardest to get right, and prove what the
code is for. `dafny verify dfyconfig.toml` checks everything.

| modules | what they model |
|---|---|
| `Bytes`, `Incremental` | machine words; consumers of a byte stream whose decisions are final, for which chunking cannot matter |
| `Message`, `TransportMessage` | the two packet codecs, and that they agree |
| `Session` | the sans-IO protocol core: the class, and the function of the state that each method is proved against |
| `Lifecycle`, `Dialogue`, `StreamDialogue`, `Handshake`, `Identifiers`, `Pending` | whole runs of the core against an arbitrary peer, with any number of starts: streams, what is said and in answer to what, handshake and maximum, the identifiers handed out, and what is pending |
| `Reliability`, `Wire` | the core composed with a device over two FIFO channels, all interleavings; the same with bytes in pieces of any sizes towards the core |
| `SessionIds`, `Dispatcher`, `DispatcherRuns`, `DispatcherOrder`, `DispatcherLoop` | identifiers, and the one-reader packet dispatcher: a transition system over all interleavings of clients and thread, its theorems on delivery and on order and output, and the thread's loop, each step of which is one of its steps |
| `WorkerTrace`, `Relay`, `Forwards` | what a worker between a local socket and a device stream may do, and the two workers on every schedule, with an outcome for every send; the rules of local forwards |
| `Services` | bytes read from a queue of packets, the shell demultiplexer, the download |
| `SyncReply`, `SyncStream`, `SyncRoundTrip`, `SyncCopy`, `SyncAgreement`, `SyncFailures` | the `sync:` replies, the agreement of four decoders of a file, and what they make of a failure |
| `Bignum`, `Spake`, `Pairing` | the scalar arithmetic, the exchange over any abelian group, and the cipher's sequence numbers |
| `DaemonFraming`, `ParallelMap` | frames on the daemon's control socket; the order-preserving parallel map |

Conventions. A 32-bit word is the subset type `u32`; wrapping, clamping and checked additions are written out. Names and
messages stay raw bytes, and errors are enumeration tags. Where the source updates fields or loops, the model has a class
or a method, proved against a function of the old state; lemmas over whole runs are about those functions. Threads,
timeouts, short reads and buffer sizes are choices of a scheduler, and every statement is about all choices.

Where the code does not do what its documentation or a natural reading says, there is an input that shows it and the
exact condition under which it does:

- `pending_write_len` leaves out the chunk in flight, though its comment speaks of bytes not yet acknowledged
  (`Pending.NothingPendingInFlight`). The comment is right exactly while no WRTE is unanswered
  (`Pending.PendingExactly`).
- A second `start` disconnects the session (`Handshake.RestartDropsTheConnection`). It is connected exactly when a
  ConnectedTo is the last of its ConnectedTo events and of the CNXNs it sent (`Lifecycle.ConnectedExactly`). All else in
  `Lifecycle` and `Handshake` holds for any number of starts, but for the two statements of
  `Handshake.OneStartOneMaximum`; `Handshake.MaximumMayShrink` shows why.
- Data may be raised before its stream is announced (`Handshake.DataBeforeOpened`), exactly when no OKAY has come yet
  (`Handshake.DataBeforeOpenedExactly`).
- Stream identifiers are counted without a check. Those of a run are non-zero and different exactly when it opens fewer
  than 2^32 streams (`Identifiers.IdsRunOut`), and come again behind that (`Identifiers.IdsComeAgain`). Statements about
  single streams are made of runs that stop short of it.
- A relay sends its CLSE after any failure, so a write that the transport declines may be lost behind a clean close
  (`Relay.DeclinedThenClosed`). The close can be trusted exactly when no send failed before a later one went through
  (`Relay.RelayClosesExactly`).
- The server client's reader takes an empty DATA record, and a stream that stops right behind a DATA header, for the end
  of the file (`SyncAgreement.RecvReaderExact`, `SyncAgreement.EarlyStops`).
- A forward whose listener fails to accept leaves its rule listed until it is removed (`Forwards.UnservedStays`); those
  are the only rules that nobody serves (`Forwards.UnservedRules`).
- A configured maximum payload of zero makes the negotiation panic; `Config` excludes it.
- The sync reader consumes nothing on an error, while the packet decoder consumes a packet with a wrong checksum and
  nothing on its other errors.

## Model

| member | source | states |
|---|---|---|
| `Message.FromCode` | adb_proto/src/message.rs:31-44 | A word is the code of at most one command: the result is a command exactly when the word is its code. |
| `Message.CommandsAreSpelled` | adb_proto/src/message.rs:11-48 | On the wire a command is its name in four ASCII letters, and its magic word the complement of each. |
| `Message.ParseIsPrompt` | adb_proto/src/message.rs:139-184 | What the decoder decides on some bytes it decides with more behind them, and it consumes only bytes that are there. |
| `Message.ParseOfEncode` | adb_proto/src/message.rs:79-96 | Reading an encoded packet within the limit gives the packet back and consumes exactly its bytes, checked or not. |
| `Message.EncodeOfParse` | adb_proto/src/message.rs:139-184 | With checking on, a byte string decodes to a packet only if it starts with that packet's encoding. |
| `Message.RoundTripAll` | adb_proto/src/message.rs:79-184 | Decoding the concatenated encodings of any packets within the limit gives those packets and leaves nothing. |
| `Message.ChecksumErrorKeepsAlignment` | adb_proto/src/message.rs:166-177 | A packet whose payload and checksum word do not go together, whichever of them was altered, costs that packet only: the decoder is then aligned on the next. |
| `Message.FramingErrorRepeats` | adb_proto/src/message.rs:141-165 | Every error but a wrong checksum consumes nothing and comes back unchanged whatever follows. |
| `Message.PacketDecoder.Push` | adb_proto/src/message.rs:134-136 | Pushed bytes are appended to what is unread; the checksum setting stays. |
| `Message.PacketDecoder.NextPacket` | adb_proto/src/message.rs:139-184 | The two phases around a pending header give the packet, the error and the unread bytes that reading everything at once gives. |
| `Message.PacketDecoder.SetVerifyChecksum` | adb_proto/src/message.rs:130-132 | Switching verification leaves the unread bytes, a pending header among them, alone. |
| `TransportMessage.SumsAgree` | adb_client/src/message_devices/adb_transport_message.rs:76-78 | The wrapping checksum is the plain byte sum modulo 2^32, and equal to it for payloads up to 16,843,009 bytes. |
| `TransportMessage.LongestSummableIsTight` | adb_client/src/message_devices/adb_transport_message.rs:76-78 | One byte more and the plain sum can leave 32 bits. |
| `TransportMessage.CodecsAcceptTheSame` | adb_client/src/message_devices/adb_transport_message.rs:61-142 | With checking on and a limit of 1 MiB the blocking codec reads a packet off a byte stream if and only if the incremental one does, the same packet and the same length. |
| `TransportMessage.CodecsWriteTheSame` | adb_client/src/message_devices/adb_transport_message.rs:30-101 | For payloads whose sum fits, both codecs write the same header. |
| `Incremental.DrainAppend` | adb_proto/src/session.rs:161-167 | Draining some bytes and going on with what is left is draining all of them, unless the first part already failed. |
| `Session.FragmentationInvisible` | adb_proto/src/session.rs:161-167 | However the input is cut into chunks, the session reaches the same transmit queue, events, streams and first error, and nothing is lost, although a CNXN in it switches checksum verification for the bytes behind it. |
| `Session.Session.constructor` | adb_proto/src/session.rs:120-134 | A new session is idle, verifies checksums, has no streams, and numbers them from 1. |
| `Session.Session.Start` | adb_proto/src/session.rs:137-147 | One CNXN with version, maximum and identity is queued and the handshake begins. |
| `Session.Session.PollTransmit` | adb_proto/src/session.rs:153-155 | Takes the oldest queued packet and changes nothing else. |
| `Session.Session.PollEvent` | adb_proto/src/session.rs:157-159 | Takes the oldest event and changes nothing else. |
| `Session.Session.HandleInput` | adb_proto/src/session.rs:161-167 | The loop over the decoder ends in the state, with the unread bytes and the error, of draining old and new bytes. |
| `Session.Session.Open` | adb_proto/src/session.rs:171-181 | Fails before the connection and changes nothing; otherwise sends OPEN under the next identifier and adds an empty stream. |
| `Session.Session.Write` | adb_proto/src/session.rs:185-193 | Fails for an unknown stream; otherwise appends to its outbox and flushes. |
| `Session.Session.Ack` | adb_proto/src/session.rs:201-206 | One OKAY towards the remote identifier of an open stream, otherwise nothing. |
| `Session.Session.Close` | adb_proto/src/session.rs:208-217 | One CLSE and the stream is gone; nothing for an unknown one. |
| `Session.Session.Flush` | adb_proto/src/session.rs:227-243 | Sends the next chunk, of at most the peer's maximum, unless the stream is not open, has a WRTE in flight or nothing to send. |
| `Session.Session.HandlePacket` | adb_proto/src/session.rs:245-301 | Every combination of state and packet has the outcome of `PacketOutcome`, errors included; what that says of logs is in `Dialogue` and `StreamDialogue`. |
| `Session.Session.HandleOkay` | adb_proto/src/session.rs:303-314 | The first OKAY opens the stream, the others end the write in flight; then the stream is flushed. |
| `Pending.RunsKeep` | adb_proto/src/session.rs:185-314 | In every run and for every stream the bytes given to `write` are those of answered WRTEs, then those in flight, then the outbox. |
| `Pending.PendingExactly` | adb_proto/src/session.rs:195-198 | What `pending_write_len` says is what was given and not acknowledged, as its comment has it, if and only if no WRTE is unanswered; otherwise it falls short by the chunk in flight. In every run, for every open stream. |
| `Pending.NothingPendingInFlight` | adb_proto/src/session.rs:195-198 | The input that shows it: a write to an idle open stream leaves a pending length of zero and all of it unacknowledged. |
| `Lifecycle.ConsumeIsHandleInput` | adb_proto/src/session.rs:161-167 | The run with its log handles input exactly as the session does. |
| `Lifecycle.ConnectedExactly` | adb_proto/src/session.rs:137-279 | In any run, with any number of starts, the session is connected if and only if the last of its ConnectedTo events and of the CNXNs it sent is a ConnectedTo. |
| `Dialogue.NothingIsSaidUnasked` | adb_proto/src/session.rs:137-324 | In any run each event and packet has its reason in the entries in front of it: ConnectedTo the CNXN whose banner it carries, a signature the token it signs, a public key its notice and a token, each stream event the packet it reports; CNXN carries version, maximum and identity. |
| `Dialogue.HandshakeIsAnswered` | adb_proto/src/session.rs:245-279 | In any run while handshaking a CNXN is followed by its ConnectedTo, and a token by its signature or by the notice and the public key, in turn, unless the key fails. |
| `Dialogue.ChecksumsNegotiated` | adb_proto/src/session.rs:247-251 | In any run checksums are verified unless the CNXN accepted last, and the host, both speak version 0x01000001 or above. |
| `Dialogue.RejectedExactly` | adb_proto/src/session.rs:245-301 | Which packets are rejected, with which error, and that a rejected packet changes nothing. |
| `Lifecycle.StreamsFollowTheMonitor` | adb_proto/src/session.rs:137-324 | In every run the monitor of a stream is in the phase that the session's entry for it says, and never in violation; an opened stream with nothing in flight has an empty outbox. |
| `Lifecycle.GrammarHolds` | adb_proto/src/session.rs:171-243 | A log that the monitor accepts has, for one remote identifier, packets sent in the order OPEN (WRTE or OKAY)* CLSE?. |
| `Lifecycle.CreditsHold` | adb_proto/src/session.rs:227-314 | In an accepted log the WRTEs sent on a stream never outnumber the OKAYs received for it while connected. |
| `Lifecycle.AnnouncedOnce` | adb_proto/src/session.rs:303-314 | In an accepted log a stream is announced once at most and reported closed once at most. |
| `Lifecycle.SilentAfterClose` | adb_proto/src/session.rs:208-301 | In an accepted log nothing is sent or raised for an identifier after its close. |
| `Lifecycle.StreamLifecycle` | adb_proto/src/session.rs:137-324 | For every run, with any number of starts, in which identifiers do not run out, and every identifier: opened once and never reused, OPEN (WRTE or OKAY)* CLSE? towards one remote identifier, WRTEs bounded by OKAYs, one announcement and one close report at most, silence after the close. |
| `StreamDialogue.StreamsAreAnswered` | adb_proto/src/session.rs:281-324 | In every run an opening OKAY is followed by its announcement, a WRTE by its data or, for an unknown stream, by CLSE(0, sender), a CLSE for an open stream by its close; and CLSE(0, x) is sent for nothing else. |
| `StreamDialogue.CallsAreHeard` | adb_proto/src/session.rs:137-217 | From every reachable state a call adds exactly its packet to the log: CNXN for a start, OPEN with the service and a zero for an open while connected, OKAY and CLSE towards the remote end of an open stream, and otherwise nothing. |
| `Handshake.RunsAreSound` | adb_proto/src/session.rs:137-314 | In any run the log is what was polled and what is queued, the handshake monitor stands where the state says, and every WRTE fits the maximum in force. |
| `Handshake.ShakenReplies` | adb_proto/src/session.rs:245-279 | In an accepted log the replies to tokens alternate signature and public key, over all starts. |
| `Handshake.ShakenCounts` | adb_proto/src/session.rs:137-279 | Each connection takes a CNXN of its own. |
| `Handshake.ShakenTraffic` | adb_proto/src/session.rs:171-279 | Nothing of a stream is sent before the device has answered once. |
| `Handshake.StartsAreSent` | adb_proto/src/session.rs:137-147 | In any run as many CNXNs are sent as the session was started, whatever comes in. |
| `Handshake.MaximumAgreed` | adb_proto/src/session.rs:251 | The maximum in force is what the CNXN accepted last asked for, raised to 1 and lowered to the host's own maximum; 4096 before. |
| `Handshake.ConnectionLifecycle` | adb_proto/src/session.rs:137-279 | For any run whatever: one CNXN for each start, replies that strictly alternate signature and public key, nothing of a stream before the first Connected, in every WRTE at least one byte and no more than the device asked for in the CNXN accepted before it, nor than the host's maximum, and the driver polls all of it and nothing else. |
| `Handshake.OneStartOneMaximum` | adb_proto/src/session.rs:137-279 | What needs a single start: one CNXN at most, and the final peer_max_payload bounds every WRTE of the run. |
| `Handshake.MaximumMayShrink` | adb_proto/src/session.rs:137-279 | With two starts it fails: a WRTE that is still queued may be larger than the maximum agreed on by the second connection. |
| `Handshake.RestartDropsTheConnection` | adb_proto/src/session.rs:137-147 | The input for `Lifecycle.ConnectedExactly`: after a second start on a connected session all stream traffic, and opening, are protocol errors. |
| `Handshake.DataBeforeOpened` | adb_proto/src/session.rs:303-324 | A WRTE that comes before the opening OKAY is raised before the stream is announced. |
| `Handshake.DataBeforeOpenedExactly` | adb_proto/src/session.rs:303-324 | In any run data is raised on a stream not yet announced if and only if no OKAY for it has come since its OPEN. |
| `Identifiers.OpensAreNumbered` | adb_proto/src/session.rs:171-181 | In any run the i-th OPEN sent carries the i-th identifier of the count, whatever was closed and started in between. |
| `Identifiers.IdsRunOut` | adb_proto/src/session.rs:171-181 | The identifiers that a run hands out are non-zero and all different if and only if it opened fewer than 2^32 streams. |
| `Identifiers.IdsComeAgain` | adb_proto/src/session.rs:171-181 | The stream opened 2^32 opens later has the same identifier. |
| `Handshake.OkayMovesChunk` | adb_proto/src/session.rs:227-314 | One OKAY sends the next chunk or leaves the stream idle. |
| `Handshake.OkaysMoveChunks` | adb_proto/src/session.rs:227-314 | k OKAYs move the next k chunks into WRTEs of this stream to its remote identifier, in order and without loss, and send nothing else. |
| `Handshake.OutboxDrains` | adb_proto/src/session.rs:227-314 | n bytes behind a write in flight have left the outbox after exactly ceil(n / peer_max_payload) OKAYs. |
| `Reliability.RunsKeep` | adb_proto/src/session.rs:171-324 | Every interleaving of host, device and channels keeps the account of every stream. |
| `Reliability.NothingLostUpwards` | adb_proto/src/session.rs:185-314 | Over all interleavings with a device that owes one OKAY for each OPEN and WRTE: received bytes, then those in transit, then the outbox are the bytes written; one credit is out exactly while the open or a write is unanswered; with none out all has arrived. |
| `Reliability.NothingLostDownwards` | adb_proto/src/session.rs:245-324 | What is raised on an open stream, then what is in transit, is what the device sent on it. |
| `Wire.Simulated` | adb_proto/src/session.rs:161-167 | Every run in which the device's packets reach the session as bytes, in pieces of any sizes, is a run of the net of packets, to the same state of both ends. |
| `Wire.NothingLostOnTheWire` | adb_proto/src/message.rs:79-184 | Both reliability statements therefore hold of byte channels towards the session, under every cut of the bytes. |
| `SessionIds.AllocateLocalId` | adb_client/src/message_devices/transport_dispatcher.rs:245-259 | Gives the first free identifier from the cursor among 2^32 - 2 tries and leaves the cursor behind the last one tried. |
| `SessionIds.CursorCycles` | adb_client/src/message_devices/transport_dispatcher.rs:251-253 | The cursor comes to every non-zero identifier exactly once in 2^32 - 1 steps, and then starts again. |
| `SessionIds.AllocationSucceeds` | adb_client/src/message_devices/transport_dispatcher.rs:245-259 | Succeeds if and only if an identifier is free other than the one behind the cursor; what it gives is non-zero and not in use. |
| `SessionIds.TwoFreeSuffice` | adb_client/src/message_devices/transport_dispatcher.rs:245-259 | Two free identifiers are enough for success. |
| `SessionIds.LastOneRefused` | adb_client/src/message_devices/transport_dispatcher.rs:245-259 | With only the identifier behind the cursor free, allocation fails. |
| `Dispatcher.TrimmedIs` | adb_client/src/message_devices/transport_dispatcher.rs:330-331 | Trimming takes off trailing zeros only, and all of them. |
| `Dispatcher.RefusedExactly` | adb_client/src/message_devices/transport_dispatcher.rs:339-385 | A device OPEN is refused if and only if no route names its destination at either end; otherwise it is relayed to the port of the route's local end, or of the destination itself, or ignored when that is no port. |
| `Dispatcher.PortOfRendered` | adb_client/src/message_devices/transport_dispatcher.rs:344-348 | A formatted port is read back as that port, and a larger number is no port. |
| `Dispatcher.UnregisterHitsItsOwn` | adb_client/src/message_devices/transport_dispatcher.rs:127-133 | An Unregister that is processed finds its identifier in use by the very client that queued it. |
| `Dispatcher.StepKeeps` | adb_client/src/message_devices/transport_dispatcher.rs:111-420 | Every step of every client and of the loop keeps the ownership invariant of every owner. |
| `Dispatcher.OwnershipHolds` | adb_client/src/message_devices/transport_dispatcher.rs:127-420 | Over every interleaving each registration's right to unregister is in one place only: an unread reply, a handle or a queued Unregister. |
| `DispatcherRuns.LiveIdentifiersAreOwned` | adb_client/src/message_devices/transport_dispatcher.rs:245-370 | In every reachable state identifiers in use are non-zero and belong to different owners, and a handle names its own session and nobody else's. |
| `DispatcherRuns.OnlyItsOwnerUnregisters` | adb_client/src/message_devices/transport_dispatcher.rs:297-299 | While the loop runs, an identifier leaves the map exactly when its own client's Unregister is processed. |
| `DispatcherRuns.DueGrows` | adb_client/src/message_devices/transport_dispatcher.rs:386-395 | A packet that is read adds to what is due to the open registration it names, and to no other. |
| `DispatcherRuns.ErrorDelivers` | adb_client/src/message_devices/transport_dispatcher.rs:407-418 | A transport error sends each registered session one CLSE. |
| `DispatcherRuns.RoutingIsAFilter` | adb_client/src/message_devices/transport_dispatcher.rs:325-420 | In every run a session was sent exactly the non-OPEN packets with its identifier that were read while it was registered, in order, and then one CLSE if and only if a transport error ended it. |
| `DispatcherRuns.AccountsHold` | adb_client/src/message_devices/transport_dispatcher.rs:111-420 | Every request is queued, answered or dropped, and every registration queued, replied to or returned: one of the three, once. |
| `DispatcherRuns.NobodyWaitsForEver` | adb_client/src/message_devices/transport_dispatcher.rs:95-420 | Once the loop has returned, every request is answered or dropped and not both, every registration has its reply, and no session keeps a sender. |
| `DispatcherOrder.ServedInOrder` | adb_client/src/message_devices/transport_dispatcher.rs:273-385 | In every run the commands served, then those queued, are the commands accepted, in order, and those served are the first of them once the loop has returned; what is written is the messages of the commands served, in order, merged with one CLSE(0, arg0) for each connection that no route named. |
| `DispatcherOrder.AnsweredIsServed` | adb_client/src/message_devices/transport_dispatcher.rs:274-311 | A request is answered if and only if its command was served, and no two commands share a token: a message whose request is answered was written once. |
| `DispatcherOrder.RoutesFollow` | adb_client/src/message_devices/transport_dispatcher.rs:300-311 | In every run a route is what the last command served for it says: its local end, or none. |
| `DispatcherOrder.RegistrationsAreGranted` | adb_client/src/message_devices/transport_dispatcher.rs:281-296 | From every reachable state a registration served is answered with an unused identifier of its own and an empty channel, or with none if and only if no identifier is free but the untried one. |
| `DispatcherOrder.ConnectionsAreRelayed` | adb_client/src/message_devices/transport_dispatcher.rs:344-369 | From every reachable state a connection routed to a port gets an unused identifier and an empty channel, and a relay holds its session. |
| `DispatcherLoop.Loop.ServeCommand` | adb_client/src/message_devices/transport_dispatcher.rs:274-321 | Serving the oldest command is an enabled Process step of the transition system. |
| `DispatcherLoop.Loop.Register` | adb_client/src/message_devices/transport_dispatcher.rs:281-296 | Allocates by `AllocateLocalId`, inserts on success, and replies with the identifier or an error. |
| `DispatcherLoop.Loop.Unregister` | adb_client/src/message_devices/transport_dispatcher.rs:297-299 | Removes the identifier, if it is there, and nothing else. |
| `DispatcherLoop.Loop.SetRoute` | adb_client/src/message_devices/transport_dispatcher.rs:300-311 | Adds, replaces or removes one route and completes the request. |
| `DispatcherLoop.Loop.Deliver` | adb_client/src/message_devices/transport_dispatcher.rs:386-395 | Appends the packet to the channel of the session it names, or discards it. |
| `DispatcherLoop.Loop.TakeOpen` | adb_client/src/message_devices/transport_dispatcher.rs:327-385 | A device OPEN is refused with a CLSE, ignored, or given a session of its own and handed to the relay. |
| `DispatcherLoop.Loop.WakeAll` | adb_client/src/message_devices/transport_dispatcher.rs:411-417 | Whatever the order in which the map gives the sessions, each is sent one CLSE with its identifier. |
| `DispatcherLoop.Loop.ReadOnce` | adb_client/src/message_devices/transport_dispatcher.rs:325-420 | Each outcome of reading the transport is the enabled step that takes just that: the packet, no packet, or the error. |
| `DispatcherLoop.Loop.Client` | adb_client/src/message_devices/transport_dispatcher.rs:119-243 | What a client does to the shared queues is the step of the transition system that it stands for, and is taken exactly when it is enabled. |
| `DispatcherLoop.Loop.Pass` | adb_client/src/message_devices/transport_dispatcher.rs:273-420 | One pass of the loop, with clients that do anything before each of its steps, is a legal run of the transition system; unless a shutdown ends it, its last step takes what the transport gave, with nothing queued. |
| `Bignum.AddLe` | adb_client/src/wireless.rs:369-378 | Exact addition modulo 2^256. |
| `Bignum.ShiftLeftThree` | adb_client/src/wireless.rs:350-357 | Exact multiplication by 8 modulo 2^256, without loss below 2^253. |
| `Bignum.OrderValue` | adb_client/src/wireless.rs:52-55 | The 32 bytes are the group order L of section 5.1 of RFC 8032. |
| `Bignum.ClearedProperties` | adb_client/src/wireless.rs:358-368 | The padded value is congruent modulo L, divisible by 8, and below 8L < 2^256 for values below L; the number of orders added is the only one below 8 that does it. |
| `Bignum.SelectInto` | adb_client/src/wireless.rs:363-365 | The masked selection takes the candidate exactly when the bit is set. |
| `Bignum.ClearCofactorBits` | adb_client/src/wireless.rs:358-368 | The in-place loop computes that padded value, modulo 2^256 in general and with no carry lost below L. |
| `Spake.MultiplyRaw` | adb_client/src/wireless.rs:334-348 | In any abelian group the loop over 256 bits gives the multiple of the point by the whole little-endian number. |
| `Spake.Start` | adb_client/src/wireless.rs:240-261 | The private scalar becomes 8 times itself, the password scalar is padded, and the message is the public point plus the multiple of the mask. |
| `Spake.Finish` | adb_client/src/wireless.rs:263-272 | The shared point is the private multiple of the unmasked peer point. |
| `Spake.BothSidesAgree` | adb_client/src/wireless.rs:240-272 | A client and a mirrored peer with the same password derive the same point, whatever their scalars. |
| `Spake.SmallSubgroupIgnored` | adb_client/src/wireless.rs:263-272 | A component of order dividing 8 in the peer's message changes nothing in the shared point. |
| `Spake.MaskTorsionIgnored` | adb_client/src/wireless.rs:246-252 | Nor does one in a mask: the padded scalar is a multiple of 8. |
| `Spake.PaddingKeepsMultiple` | adb_client/src/wireless.rs:358-368 | For a mask of order L the padding does not change its multiple. |
| `Pairing.PairingCipher.Encrypt` | adb_client/src/wireless.rs:307-316 | Seals under the current number and counts, or fails for ever at the last number. |
| `Pairing.PairingCipher.Decrypt` | adb_client/src/wireless.rs:317-326 | Opens under the current number and counts, also when the message is rejected. |
| `Pairing.NonceTells` | adb_client/src/wireless.rs:379-383 | A nonce is the sequence number in its first eight bytes, lowest first, and four zeros. |
| `Pairing.NoncesDiffer` | adb_client/src/wireless.rs:379-383 | Different sequence numbers give different nonces. |
| `Pairing.SendAll` | adb_client/src/wireless.rs:307-316 | Encrypting messages one after the other seals them under consecutive numbers, and fails exactly when the numbers run out. |
| `Pairing.ReceiveAll` | adb_client/src/wireless.rs:317-326 | Decrypting messages one after the other opens them under consecutive numbers, rejected ones included. |
| `Pairing.SealedApart` | adb_client/src/wireless.rs:307-316 | Any two messages that one side sends in turn are sealed under different nonces. |
| `Pairing.StepsTogether` | adb_client/src/wireless.rs:307-326 | Every message that arrives as it was sent is understood, even behind messages that were altered and rejected. |
| `Pairing.Exchange` | adb_client/src/wireless.rs:307-326 | Two fresh ciphers under one key: what one sends in turn the other reads in turn, whole. |
| `SyncReply.ReplyIsPrompt` | adb_proto/src/sync.rs:112-221 | For every kind a decided reply stays decided when more bytes arrive and uses only bytes that are there. |
| `SyncReply.SyncReader.Push` | adb_proto/src/sync.rs:106-110 | Bytes are appended until the reply is complete and ignored afterwards. |
| `SyncReply.SyncReader.NextEvent` | adb_proto/src/sync.rs:112-221 | Takes one record, waits, or reports an error and consumes nothing. |
| `SyncReply.SyncReader.Advance` | adb_proto/src/sync.rs:91-221 | Pushing a fragment and taking every event is draining the buffered bytes. |
| `SyncStream.FragmentsInvisible` | adb_proto/src/sync.rs:106-221 | Events, completion and first error depend on the concatenated input only, for every kind and every cut. |
| `SyncStream.EntriesThenOneEnd` | adb_proto/src/sync.rs:112-221 | Entries of the right kind, then one terminal event at most, and nothing after it whatever is pushed. |
| `SyncRoundTrip.ReplyOfWritten` | adb_proto/src/sync.rs:112-251 | Each of the seven kinds of record is read back as the event it was written for, whatever the skipped fields hold. |
| `SyncRoundTrip.RepliesRoundTrip` | adb_proto/src/sync.rs:91-251 | Any entries and an end, in any fragments, are reported as exactly those events. |
| `SyncCopy.SyncPayloadReader.Receive` | adb_client/src/message_devices/adb_session.rs:140-150 | A message read is acknowledged, whatever its command; a read that fails sends nothing, and an OKAY that fails is not counted. |
| `SyncCopy.ReadableIsConcatenation` | adb_client/src/message_devices/adb_session.rs:32-60 | What can be read is the payloads of WRTEs with bytes, in order, up to anything else. |
| `SyncCopy.SyncPayloadReader.Read` | adb_client/src/message_devices/adb_session.rs:32-60 | Gives 1 to the wanted number of the next bytes while there are any; one OKAY for each message read, none for a read that failed. |
| `SyncCopy.CopySyncFile` | adb_client/src/message_devices/adb_session.rs:63-108 | Writes and ends as the decoder of the whole stream does, under every packetisation and buffer size, and has sent one OKAY for each message read. |
| `SyncCopy.RecvCommandReader.Read` | adb_client/src/server_device/commands/recv.rs:24-67 | A read gives the next part of what the decoder of the whole stream gives, its error, or its end. |
| `SyncCopy.PullAll` | adb_client/src/server_device/commands/recv.rs:24-104 | Copying until the end gives what the decoder of the whole stream gives, under every buffer size and short read; only of a record that is cut short may it give less, and every whole record is there. |
| `SyncAgreement.RecvReaderExact` | adb_client/src/server_device/commands/recv.rs:33-40 | The server client's reader gives the whole file if and only if no record with bytes stands behind one without. |
| `SyncAgreement.DecodersAgree` | adb_proto/src/sync.rs:191-205 | The incremental reader, the session copy, the download and the server client's reader give the same bytes for any records of 1 to 64 KiB and DONE. |
| `SyncAgreement.FileRoundTrip` | adb_proto/src/sync.rs:262-271 | A file cut up by data_frames and ended by done comes back whole from all four. |
| `SyncAgreement.EarlyStops` | adb_client/src/server_device/commands/recv.rs:33-40 | For every place a file can stop early: the session copy and the download report it, and the server client's reader misses it if and only if it stops behind a DATA header or inside the last word. |
| `SyncFailures.FailuresAreReported` | adb_client/src/message_devices/adb_session.rs:84-95 | A file that ends in FAIL: the session copy, the download and the server client's reader deliver the records before it and report its text, up to 1 MiB, up to 64 KiB, and any. |
| `SyncFailures.StrangersEndIt` | adb_client/src/message_devices/adb_session.rs:96-105 | Behind any records another record ends each of the three: the records are delivered, and it is not taken for an end. |
| `SyncFailures.CutsAreDelivered` | adb_client/src/message_devices/adb_session.rs:73-82 | Of a record cut short the session copy delivers what there is, the download nothing, and the server client's reader at most what there is, and each reports it. |
| `SyncFailures.BodiesAreLimited` | adb_proto/src/sync.rs:170-209 | The incremental reader rejects DATA if and only if it is above 64 KiB, and FAIL if and only if above 4096 bytes, and waits for what is cut short. |
| `SyncFailures.NamesAreLimited` | adb_proto/src/sync.rs:133-169 | It rejects a name if and only if it is above 1024 bytes, in listings of both versions. |
| `SyncFailures.StrangersAreRejected` | adb_proto/src/sync.rs:117-215 | It rejects a record exactly when it has no place in a reply of its kind. |
| `Services.Service.TakePacket` | adb_client/src/message_devices/dispatched_device.rs:575-598 | Takes one packet and sends exactly its reply: OKAY for a WRTE, CLSE for a CLSE, from the local to the remote end, and otherwise nothing. |
| `Services.Service.ReadBytes` | adb_client/src/message_devices/dispatched_device.rs:575-598 | Gives the next bytes of the service if there are enough, whatever the packets; every packet taken is replied to in turn, a WRTE with one OKAY. |
| `Services.Service.ValidAcknowledges` | adb_client/src/message_devices/dispatched_device.rs:575-635 | In every state that `ReadBytes` leaves: the OKAYs sent are as many as the WRTEs taken, and were at every packet before, the CLSEs as many as the CLSEs taken, and each is (local, remote) without a payload. |
| `Services.Service.ShellCommand` | adb_client/src/message_devices/dispatched_device.rs:355-413 | Standard output is the whole first channel; it succeeds if and only if the stream ends with exit byte zero, and another byte comes with the first 65,536 bytes of the second channel; as many OKAYs as WRTEs taken, each in its turn, and one CLSE behind an exit, all (local, remote). |
| `Services.ShellRoundTrip` | adb_client/src/message_devices/dispatched_device.rs:355-413 | For any chunks on two channels and an exit byte: each channel comes out in order, and the verdict is success if and only if the byte is zero, and otherwise the byte with the first 65,536 bytes of the second channel. |
| `Services.ShellFaults` | adb_client/src/message_devices/dispatched_device.rs:366-411 | Behind whole packets of the two channels, which are delivered: a length above 1 MiB, a packet cut short, another channel and an exit of other than one byte are each their own end, and none is a success. |
| `Services.CarriedIsConcatenation` | adb_client/src/message_devices/dispatched_device.rs:575-598 | The bytes of a service do not show how they were packetised: they are the payloads of the WRTEs, in order, up to a command other than WRTE and OKAY. |
| `Services.Service.Pull` | adb_client/src/message_devices/dispatched_device.rs:415-448 | Writes and ends as the decoder of the whole stream does; as many OKAYs as WRTEs taken, each in its turn, and one CLSE however it ends, all (local, remote). |
| `DaemonFraming.WriteFramed` | adb_cli/src/direct_daemon.rs:228-242 | A write puts frames of 1 to 64 KiB on the stream and nothing for an empty one. |
| `DaemonFraming.StreamOperation` | adb_cli/src/direct_daemon.rs:308-320 | Status line, the frames of all writes, the frame without bytes, and the line that says how it ended. |
| `DaemonFraming.DecodeStream` | adb_cli/src/direct_daemon.rs:195-225 | Writes and ends as the decoder of the whole stream does. |
| `DaemonFraming.StreamRoundTrip` | adb_cli/src/direct_daemon.rs:195-320 | For any writes, empty ones included, the client outputs exactly the bytes written and succeeds if and only if the operation did; otherwise it is given ERR, a tab, the operation's error and a line feed. |
| `DaemonFraming.FramesFault` | adb_cli/src/direct_daemon.rs:202-218 | Behind whole frames, which are delivered, a length above 1 MiB is oversized and a frame or a length cut short is truncated. |
| `DaemonFraming.FramedReader.Read` | adb_cli/src/direct_daemon.rs:262-293 | Gives at least one byte while there is one, then nothing for ever, and fails exactly when the frames are cut short or too large. |
| `DaemonFraming.ReadToEnd` | adb_cli/src/direct_daemon.rs:262-306 | Whatever the buffer sizes, the bytes of the frames once and in order. |
| `DaemonFraming.UploadRoundTrip` | adb_cli/src/direct_daemon.rs:262-306 | An upload in frames of any sizes up to 1 MiB is what its frames hold. |
| `ParallelMap.MovedKeeps` | adb_cli/src/compat.rs:47-60 | Every step of every worker keeps each index claimed once, in one worker's hands or sent. |
| `ParallelMap.ClaimsBounded` | adb_cli/src/compat.rs:43-47 | No more operations run than there are workers. |
| `ParallelMap.KeysArePositions` | adb_cli/src/compat.rs:64-65 | Distinct keys below their number, in order, are the positions. |
| `ParallelMap.AnyScheduleIsSequential` | adb_cli/src/compat.rs:34-66 | Whatever the interleaving and whatever sorts the pairs, the outputs are those of the sequential map. |
| `ParallelMap.BoundedParallelMap` | adb_cli/src/compat.rs:34-66 | Under every schedule it ends with the sequential map, with min(max(limit, 1), len) operations at once at most. |
| `Relay.RunRelay` | adb_client/src/message_devices/transport_dispatcher.rs:751-813 | The relay does on every schedule what `RelayRun` says, with the opening OKAY, each send taken, declined or made in vain, and the closing CLSE. |
| `Relay.RelayIsFaithful` | adb_client/src/message_devices/transport_dispatcher.rs:751-813 | On every schedule and with every outcome of every send: the WRTEs sent, then one that failed, then what is in hand are the bytes taken from the socket; one is in flight at most; each device WRTE is written before its one OKAY; the end of the socket is seen only with nothing in flight; the last thing tried is the CLSE. |
| `Relay.RelayClosesExactly` | adb_client/src/message_devices/transport_dispatcher.rs:751-813 | Behind a CLSE that went out all bytes taken were sent and all writes acknowledged, if and only if no send failed before a later one went through. |
| `Relay.DeclinedThenClosed` | adb_client/src/message_devices/transport_dispatcher.rs:799-811 | The input that shows it: a WRTE that the transport declines and a CLSE that it takes lose the bytes behind a clean close. |
| `Relay.RunForward` | adb_client/src/message_devices/dispatched_device.rs:302-353 | The loop of a forwarded connection does on every schedule what `ForwardLoop` says. |
| `Relay.ForwardIsFaithful` | adb_client/src/message_devices/dispatched_device.rs:302-353 | The same of a forwarded connection, which is closed after its local end or the device's CLSE only, so that its close can always be trusted. |
| `Relay.WorkersEndExactly` | adb_client/src/message_devices/transport_dispatcher.rs:766-811 | Both workers, on every schedule: behind the end of the socket or a CLSE of the device there is only the closing CLSE, sent or not; a worker that goes on has seen neither; it has finished if and only if one of them was the last thing before the close. |
| `Relay.WorkersTakeAll` | adb_client/src/message_devices/transport_dispatcher.rs:772-809 | Both workers, on every schedule: as long as nothing goes wrong each turn takes, writes and acknowledges the packet that has come, and takes from the socket exactly when no WRTE is in flight. |
| `WorkerTrace.OrderlyIsFaithful` | adb_client/src/message_devices/transport_dispatcher.rs:772-809 | What a trace of proper events adds up to at every moment of it. |
| `WorkerTrace.ClosedExactly` | adb_client/src/message_devices/transport_dispatcher.rs:767-811 | In an orderly trace a CLSE that went out stands for a whole exchange if and only if no send before it failed. |
| `Forwards.RulesAreServers` | adb_client/src/message_devices/dispatched_device.rs:179-264 | In every reachable state a rule is listed exactly while its own server has not been told to stop, no two such servers share an endpoint, and removing a rule stops its own server only. |
| `Forwards.ServersAreThoseAdded` | adb_client/src/message_devices/dispatched_device.rs:179-225 | In every reachable state the servers are those of the rules added, in order, each between the two endpoints it was given; a rule is added for a bound, unlisted TCP port other than zero. |
| `Forwards.AllAreRemoved` | adb_client/src/message_devices/dispatched_device.rs:257-264 | Removing all rules leaves none listed and tells every server to stop. |
| `Forwards.LeavingRemovesNothing` | adb_client/src/message_devices/dispatched_device.rs:226-233 | A server that leaves finds its rule already gone: its clean-up never removes anything. |
| `Forwards.UnservedRules` | adb_client/src/message_devices/dispatched_device.rs:201-225 | In every reachable state a listed rule has no listener if and only if its own server failed to accept at some time. |
| `Forwards.UnservedStays` | adb_client/src/message_devices/dispatched_device.rs:201-225 | Such a rule stays listed, and another server for its endpoint is refused, after any actions but its removal. |


## Left out

- USB, TCP and TLS transports, IOKit, mDNS, Unix-socket deadlines and process spawning: queues of bytes or packets stand for them.
- RSA signing, key generation, SHA, HKDF, AES-GCM, Base64 and point compression: library code; signing and sealing are functions, the curve is any abelian group.
- `PacketDecoder::set_max_payload`: the limit is a constant of the decoder, as the session leaves it.
- `DeviceBanner::parse` and UTF-8 conversion: banners, names, routes and messages are raw bytes, and a lossy conversion that would make two of them equal is not modelled.
- The request builders and `parse_status` of `sync.rs`, and the upload in `push` and `push_file`: one frame each, or a loop of request and reply.
- Failed sends in `Services`: an acknowledgement that cannot be sent ends the operation with an error. `Relay` and `SyncCopy` follow failed sends. Whether the transport took a packet is part of the answer in `Dispatcher` and not told apart there.
- The bytes of the host's own packets in `Wire`: only the direction towards the session is a byte channel, since the session decodes and does not encode.
- Time: poll intervals, deadlines and TTLs are steps without a packet.
- `TransportDispatcher::routes` in `Dispatcher`: the request is answered; the list it returns is not modelled.
- `ordered_reverse_connector`: a FIFO channel and one thread for each port; a relayed session starts in `Dispatcher` and its worker is `Relay`.
- The thread that reads the socket of a forwarded connection and its bounded channel: a FIFO in front of `Relay.RunForward`.
- `reverse_relay.rs`: it does not enforce one outstanding write and says so.
- The list reader `read_bytes_from_transport`: `Services.Service.ReadBytes` is the general form.
- `open_session` and `open_destination`: one OPEN and its OKAY; `Services` starts behind them.
- An operation that panics in `bounded_parallel_map`: the panic goes through to the caller.
- Output that a caller's writer refuses, in the download, the shell and the daemon's client.
- SyncCopy.PullAll: of a record that is cut short the caller may have been given any part, as short reads decide; the statement bounds it from both sides.
- Command lines, selectors, file-system walks, emulator console, Python bindings and display code: thin.
