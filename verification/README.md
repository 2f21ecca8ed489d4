# WSG50 driver: a verified model

The driver talks to a WSG50 gripper over TCP. This project models its three layers and proves what they promise.

**Wire codec** (`Crc.dfy`, `Frames.dfy`, `Stream.dfy`, `Receiver.dfy`). Frames carry a checksum that mixes a
left-shifting table with a right-shifting register, so it has its own algebra: the register update is linear over
exclusive or but not invertible. The receiver is a resynchronising parser that works in place on a byte buffer; it is
proved against a scanner that looks at one position of the whole stream after another, and what matters is then proved
about the scanner.

**Request engine** (`Device.dfy`, `Engine*.dfy`, `Transport.dfy`). Client threads and one worker share two queues, an
in-flight table, a connection flag and one-shot promises. `Engine` is a transition system whose steps are the
lock-protected sections and the single atomic accesses; `disconnect` is four kinds of steps, and `running_` is read
where the source reads it. `EngineInvariant` is its inductive invariant, `EngineSteps` and `EngineRuns` prove that
every step keeps it, `EngineEffects` and `EngineFields` say what any single step can do to the histories and the
fields. `EngineTheorems` holds the safety results; `EngineLane` the order of the priority lane; `EngineTransmission`
that what is dispatched is sent, once; `EngineReplies` which reply a frame makes, and which frame a reply comes from;
`EngineTelemetry` what the published state shows; `EngineLoss` what ends a connection and what is left of it;
`EngineConnection` what a working connection does for a command made on it; `EngineDrain`, `EngineDelay` and
`EngineWitness` how long accepted requests can take; `EnginePriority` how soon a priority request goes out and a
stopped transport is done; `EngineShutdown` how the worker ends. `Transport.dfy` is the transport as an object with
the source's fields; its methods are the sections as one thread executes them, each proved equal to the engine's step
functions, and the operations they make up are proved to be runs of engine steps.

**Driver protocol** (`Driver*.dfy`). The executor's callbacks, the initialisation thread and any number of goal
threads run on top of the engine; every caller of `command` in the node is a part of the state, so the results hold
for the composed system. `DriverInvariant` and `DriverSteps` give its inductive invariant. Of the results,
`DriverTheorems` holds those about initialisation, preemption and one motion at a time; `DriverCallbacks` what the
readiness check, the connection timer and the home service read and what comes of it; `DriverThread`, `DriverGoals` and
`DriverStops` what a goal's thread does from its acceptance to its outcome; `DriverCommands` which commands there are;
`DriverAttempts` and `DriverRace` how initialisation attempts end; `DriverShutdown` that all threads end.

Assumptions, all visible in the step relations: callbacks of the node's default callback group do not overlap (there
is one callback slot), and none runs once the node is being destroyed; each atomic access, lock operation and future
becoming ready is one step; time passes only in `Tick` steps; the outcome of every socket call is arbitrary. An expiry
check is two steps, because the worker reads the clock before it takes the queue mutex.

Where a promise does not hold as simply as it could be stated, the exact condition is proved and an execution shown:

- *Draining.* With worker iterations of at most `d`, no new requests and no pending replies, everything outstanding is
  resolved within the sum of (timeout + 2d) if the transport is stopped, or something is in flight or in the worker's
  hands, or the worker is disconnecting or has this iteration's dispatch ahead or read the clock for its expiry check,
  or no more of the iteration is left than there are requests waiting with a positive timeout. Otherwise the sum can
  be exceeded, of every state whose waiting requests can be sent one after another (`Tame`); this is
  `EngineDelay.SumIsExact`. A run from the initial state that exceeds the sum is `EngineWitness.OneIterationMore`. The
  bound that always holds is `EngineDrain.Bound`, and from those states it is reached.
- *Pending replies.* A pending reply adds at most one more timeout exactly if it comes no later than the deadline it
  extends (`EngineDrain.PendingAdds`); `EngineWitness.LatePendingReply` is a run with a late one that takes longer.
- *Lost frames.* A sound frame that another sound frame overlaps can be lost (`Stream.CoveredFrame`); one that none
  overlaps from before is delivered once the stream is decided past its start (`Stream.UncoveredIsDelivered`), and
  `Stream.DeliveredExactly` says exactly which frames are.
- *Missed connections.* The transport publishes a connection before it sets `connected_`. An initialisation whose
  timer reads the new generation in between can be refused, and is then not repeated while that connection lasts; one
  whose timer reads it later cannot be refused while the connection works. `DriverRace.MissedExactlyIfUnannounced` is
  this if-and-only-if, `DriverRace.AttemptMayMissConnection` an execution on the first connection.

## Model

| member | source | states |
|---|---|---|
| Crc.Crc16 | wsg50_driver/src/transport.cpp:146-159 | The loop over bytes and bits computes the fold of the register update over the first `size` bytes, from 0xffff. |
| Crc.TableValue | wsg50_driver/src/transport.cpp:150-155 | Eight conditional shifts of a seed are the table value of its byte. |
| Crc.TableClosed | wsg50_driver/src/transport.cpp:150-155 | The eight conditional rounds equal a closed form of three shifts, for every word. |
| Crc.NextLinear | wsg50_driver/src/transport.cpp:149-157 | The register update distributes over exclusive or. |
| Crc.FromDifference | wsg50_driver/src/transport.cpp:149-157 | The difference of two registers after a common suffix depends only on their difference and the suffix's length. |
| Crc.ErasableMoves | wsg50_driver/src/transport.cpp:149-157 | The eight erasable differences are closed under the update in both directions; four of them vanish in two steps. |
| Crc.FadesToZero | wsg50_driver/src/transport.cpp:149-157 | A difference vanishes under a suffix of three bytes or more exactly if it is one of the eight, and never otherwise. |
| Crc.AcceptedTrailers | wsg50_driver/src/transport.cpp:410 | After any body exactly four trailers give residue zero: the checksum and its three translates. |
| Crc.AdjacentCorruption | wsg50_driver/src/transport.cpp:410 | Changing two adjacent bytes keeps the residue exactly for eight fixed differences, four if nothing follows. |
| Crc.SingleByteCaught | wsg50_driver/src/transport.cpp:410 | Changing any one byte of a message of any length changes its checksum. |
| Crc.KnownVectors | wsg50_driver/test/test_transport.cpp:251-262 | The two vectors of the protocol: 0x50f5 and 0x70f5. |
| Frames.EncodeFrame | wsg50_driver/src/transport.cpp:126-144 | Builds preamble, id, little-endian size, payload and little-endian checksum; empty if the payload exceeds 65535 bytes. |
| Frames.EncodingLayout | wsg50_driver/test/test_transport.cpp:238-249 | Where each byte of an encoding stands: three times 0xaa, the id, the size and the checksum of all that lowest byte first, the payload from the seventh byte on. |
| Frames.KnownFrame | wsg50_driver/test/test_transport.cpp:251-262 | The query of the system state is the eleven bytes aa aa aa 40 03 00 00 00 00 f5 70. |
| Frames.SizeRoundTrip | wsg50_driver/src/transport.cpp:136-138 | The size read back from the two size bytes is the size written. |
| Frames.EncodingSound | wsg50_driver/src/transport.cpp:140-142 | Every frame the encoder writes passes the receiver's residue test. |
| Frames.SoundFrames | wsg50_driver/src/transport.cpp:401-417 | Any bytes with a preamble and a matching size are the encoder's body of the frame read from them, and pass the test exactly if the rest is one of the four trailers. |
| Receivers.Search | wsg50_driver/src/transport.cpp:379-381 | Finds the first preamble, or the end if there is none. |
| Receivers.CountTrailing | wsg50_driver/src/transport.cpp:383-389 | Counts the preamble bytes at the end, up to two. |
| Receivers.Receiver.ParseFrames | wsg50_driver/src/transport.cpp:375-422 | Terminates, hands on exactly the frames the scanner finds in the buffer, and leaves a buffer that stands for the scanner's undecided rest: under 8 bytes or an incomplete frame, and always fewer than 8 + max bytes. |
| Receivers.Receiver.Receive | wsg50_driver/src/transport.cpp:353-357 | One `recv`: over any history, the frames handed on are those of the whole stream; the buffer never reaches 8 + max + 2048 bytes, and one `recv` completes at most an eighth as many frames. |
| Receivers.Receiver.ReceiveAvailable | wsg50_driver/src/transport.cpp:349-373 | Any number of `recv`s of any sizes deliver what one scan of the whole stream delivers. |
| Receivers.Receiver.Reset | wsg50_driver/src/transport.cpp:290 | A new connection starts with an empty stream. |
| Receivers.NoPreamble | wsg50_driver/src/transport.cpp:382-394 | Without a preamble nothing is lost by keeping only the trailing preamble bytes. |
| Receivers.SkipToPreamble | wsg50_driver/src/transport.cpp:395-397 | Erasing up to the first preamble does not change what the buffer means. |
| Stream.ScanResumes | wsg50_driver/src/transport.cpp:349-422 | Scanning may stop at any byte and resume with the rest. |
| Stream.FragmentationIndependence | wsg50_driver/src/transport.cpp:349-422 | Every split of a stream into chunks delivers the same frames in the same order and the same undecided rest. |
| Stream.DeliveredExactly | wsg50_driver/src/transport.cpp:375-422 | A sound frame is delivered if and only if the stream has been decided past its start and no earlier delivered frame covers its start. |
| Stream.UndecidedIsShort | wsg50_driver/src/transport.cpp:406-409 | The undecided end of any stream is shorter than the longest admissible frame. |
| Stream.BoundedResynchronisation | wsg50_driver/src/transport.cpp:375-422 | Once the stream reaches 8 + max bytes past a sound frame's start, the frame is delivered or an accepted earlier frame runs over its start. |
| Stream.UncoveredIsDelivered | wsg50_driver/src/transport.cpp:375-422 | A sound frame that no sound frame overlaps from before is delivered exactly if the stream is decided past its start, which it is once it reaches 8 bytes and the longest payload past that start. |
| Stream.CoveredFrame | wsg50_driver/src/transport.cpp:402-405 | For every frame that fits, its encoding inside the payload of another frame is a sound frame that is not delivered. |
| Stream.FramesAtStarts | wsg50_driver/src/transport.cpp:414-420 | The delivered frames are those standing at the delivered positions, in order. |
| Stream.JunkIsSkipped | wsg50_driver/src/transport.cpp:378-397 | Junk without a preamble and not ending in a preamble byte is skipped without effect. |
| Stream.EncodingIsDelivered | wsg50_driver/src/transport.cpp:126-144 | An encoded frame of admissible size at the front of any stream is delivered and exactly its bytes are consumed. |
| Stream.RoundTrip | wsg50_driver/src/transport.cpp:126-144 | Concatenated encodings, each behind clean junk, are read back as exactly that list, with nothing left. |
| Stream.RoundTripInChunks | wsg50_driver/src/transport.cpp:349-422 | The same under every chunking. |
| Stream.DeliveredBytes | wsg50_driver/src/transport.cpp:401-420 | Conversely, a delivered frame's bytes are its encoding up to the four accepted trailers. |
| Device.UpdateStaysCoherent | wsg50_driver/src/transport.cpp:465-495 | An update while connected keeps the flags equal to the decoded bits, the connection and the generation. |
| Device.TransitionsStayCoherent | wsg50_driver/src/transport.cpp:291-323 | So do connecting, disconnecting and the initial state. |
| EngineRuns.InvStep | wsg50_driver/src/transport.cpp:95-589 | Every step of clients, worker and environment keeps the engine's invariant. |
| EngineRuns.InvRun | wsg50_driver/src/transport.cpp:95-589 | Every reachable state satisfies it. |
| EngineTheorems.ExactlyOnePlace | wsg50_driver/src/transport.cpp:95-124 | In every interleaving a submitted request is in exactly one of: its client's hands, a queue, the in-flight table, the worker's hands, resolved; and `set_value` in `handle_frame` never meets a set promise. |
| EngineTheorems.FirstResolutionStands | wsg50_driver/src/transport.cpp:561-570 | The first resolution of a request is final over the rest of the run. |
| EngineTheorems.ResolvedAtExit | wsg50_driver/src/transport.cpp:242-243 | When `run` has returned, every request whose `command` has returned is resolved. |
| EngineTheorems.NothingSurvivesAConnection | wsg50_driver/src/transport.cpp:106-117 | Whatever is transmitted on a connection generation was accepted or queued internally during that generation (what must be transmitted is `TransmittedOnce`); a successful request was accepted no earlier than it was made. |
| EngineTheorems.GenerationStep | wsg50_driver/src/transport.cpp:291-300 | The generation rises by exactly one per successful connect and nowhere else, and only connecting publishes a connection. |
| EngineTheorems.ConnectionUnbroken | wsg50_driver/src/transport.cpp:291-323 | Generations never fall, and a generation still connected at the end of a stretch was connected all through it. |
| EngineTheorems.PublishedStateCoherent | wsg50_driver/src/transport.cpp:475-481 | In every reachable state the published flags are the decoded system state, and all are clear without a connection. |
| EngineTheorems.RefinesFifo | wsg50_driver/src/transport.cpp:497-524 | Every step of every run, send failures and bulk failure included, enqueues ordinary requests at the tail of a first-in first-out server, completes its head, or leaves it alone. |
| EngineTheorems.ResolvedInOrder | wsg50_driver/src/transport.cpp:572-589 | Ordinary requests are resolved in the order of their acceptance. |
| EngineTheorems.DispatchedInOrder | wsg50_driver/src/transport.cpp:508-510 | An ordinary request is dispatched only when all accepted before it are resolved. |
| EngineTheorems.InFlightDiscipline | wsg50_driver/src/transport.cpp:501-516 | Every key of the in-flight table is its request's id, and at most one ordinary request is in flight. |
| EngineTheorems.NothingOverwritten | wsg50_driver/src/transport.cpp:515 | Dispatching never replaces an entry of the in-flight table. |
| EngineTheorems.PriorityNeverOvertaken | wsg50_driver/src/transport.cpp:501-513 | While a priority request waits no ordinary request enters flight. |
| EngineLane.LaneInOrder | wsg50_driver/src/transport.cpp:110-114 | Over every run, of two priority requests the one accepted first leaves the lane first: when the other has left, it is in flight, in the worker's hands or resolved. |
| EngineLane.HeadStays | wsg50_driver/src/transport.cpp:502-507 | Over every run, a request at the head of the priority lane stays at its head as long as it waits. |
| EngineTransmission.TransmittedOnce | wsg50_driver/src/transport.cpp:518-523 | In every reachable state, a request in flight that the worker is neither sending nor giving up, and a request the device has answered, has been transmitted exactly once, on the generation it was accepted on; one that still waits has not been transmitted. |
| EngineReplies.FrameAnswers | wsg50_driver/src/transport.cpp:424-463 | In every interleaving, when `handle_frame` is done with a frame, the request in flight under its id has got exactly its status and payload and is out of flight; or, for a pending status it allows, its deadline is a timeout later; without such a request the table is as it was. |
| EngineReplies.ReplyIsAFrame | wsg50_driver/src/transport.cpp:446-463 | Conversely, every reply other than a failure is the status and the payload of a frame that arrived under the request's id while it was in flight and after it had been transmitted. |
| EngineTelemetry.PublishedIsTold | wsg50_driver/src/transport.cpp:465-495 | In every reachable state the published opening, speed, force and grasping state are the bytes of the last successful frame 0x43, 0x44, 0x45 and 0x41 that was long enough; the system state is the number in the last such frame 0x40 since the last disconnect; the last status is that of the last connect, failing frame, answered command or disconnect. |
| EngineLoss.LossIsTotal | wsg50_driver/src/transport.cpp:305-323 | Whatever loses the connection (poll, recv or a send that breaks, a deadline that has passed, the end of the loop): when `disconnect` is over, no connection is left or published, nothing waits or is in flight, every request ever accepted is resolved, as a failure if not before, and the worker goes on where it should. |
| EngineLoss.OnlyLossDisconnects | wsg50_driver/src/transport.cpp:202-242 | Conversely, in every run `connected_` is cleared only for one of these reasons. |
| EnginePriority.PriorityGoesOut | wsg50_driver/src/transport.cpp:502-507 | In every paced run, a request at the head of the priority lane at one moment is dispatched or failed within the rest of the iteration, or one more if its dispatch is over, unless its own id is in flight; what joins the lane meanwhile does not matter. |
| EnginePriority.StopEndsSoon | wsg50_driver/src/transport.cpp:202-242 | In every paced run, once the transport is stopped, nothing stays outstanding for longer than the rest of the iteration and one more, whatever waits and whatever the peer does. |
| EngineConnection.ConnectionStep | wsg50_driver/src/transport.cpp:291-308 | A generation on which `connected_` and `running_` are set stays so or is over for good: neither flag comes back within it. |
| EngineConnection.HeardStep | wsg50_driver/src/transport.cpp:106-121 | While the connection works, every step keeps a command whose payload fits a frame from being refused: its call is accepted on this generation, and only the device resolves it. |
| EngineTheorems.LaterCallsFail | wsg50_driver/src/transport.cpp:118-121 | In every interleaving, a request not accepted before the worker ended enters no queue afterwards and can only be resolved as failed, unless the transport is started again. |
| EngineDrain.DeadlinesAhead | wsg50_driver/src/transport.cpp:514 | In every reachable state outside `disconnect` every request in flight has a deadline that lies no earlier than the clock reading of the last expiry check that passed and is at most its timeout away. |
| EngineDrain.DrainStep | wsg50_driver/src/transport.cpp:526-542 | Every step pays for the time it takes out of the remaining bound, up to what newly accepted requests and pending replies add. |
| EngineDrain.DrainBound | wsg50_driver/src/transport.cpp:497-542 | While something stays outstanding, no more time passes than the shares of the waiting requests, one less than timeout + 2d each, and what is left of the deadlines in flight or of the iteration, plus what is accepted and what pending replies add to deadlines. |
| EngineDrain.DrainsWithinSum | wsg50_driver/src/transport.cpp:526-542 | Where `SumSuffices`, the sum of (timeout + 2d) over everything outstanding bounds the time. |
| EngineDrain.PendingAdds | wsg50_driver/src/transport.cpp:440-443 | In every run a pending reply adds what it moves the deadline by: at most the timeout if and only if it is not late. |
| EngineDelay.BoundIsReached | wsg50_driver/src/transport.cpp:497-542 | From every reachable tame state with requests waiting, nothing in flight and the dispatch over, and for every pace of d >= 1, some paced way to go on takes exactly the bound. |
| EngineDelay.SumIsExact | wsg50_driver/src/transport.cpp:497-542 | From every reachable state that is tame or of a stopped transport, the sum of (timeout + 2d) bounds every paced way to go on if and only if the transport is stopped or `SumSuffices`. |
| EngineWitness.OneIterationMore | wsg50_driver/src/transport.cpp:497-542 | A run from the initial state whose last requests take longer than the sum of (timeout + 2d). |
| EngineWitness.LatePendingReply | wsg50_driver/src/transport.cpp:439-443 | A run from the initial state with one late pending reply that takes longer than that sum and one more timeout. |
| EngineShutdown.WorkerNears | wsg50_driver/src/transport.cpp:202-242 | Once `running_` is cleared, every step of the worker, whatever the peer sends, lowers a measure of its way to the end of `run`. |
| EngineShutdown.WorkerProgress | wsg50_driver/src/transport.cpp:202-242 | Until then, with the queue mutex free, the worker can take a step. |
| Transports.Transport.FailRequest | wsg50_driver/src/transport.cpp:561-570 | A promise that is already set keeps its value. |
| Transports.Transport.Command | wsg50_driver/src/transport.cpp:106-123 | Queues at the end of its lane if connected, fails the promise otherwise, and changes no other container; equals the engine's call steps. |
| Transports.Transport.TakeRequest | wsg50_driver/src/transport.cpp:499-516 | Takes the head of the priority lane unless its id is in flight; without a priority request, the head of the queue if nothing is in flight; enters it in the table with its deadline a timeout from now; equals the engine's dispatch step. |
| Transports.Transport.GiveUp | wsg50_driver/src/transport.cpp:520-522 | A failed send leaves the in-flight table without the request and its promise failed, unless it was set, and no other promise touched. |
| Transports.Transport.UpdateState | wsg50_driver/src/transport.cpp:465-495 | The assignments put the bytes of frames 0x43, 0x44, 0x45 and 0x41 where they belong and amount to the state update the coherence and telemetry lemmas speak of. |
| Transports.Transport.HandleFrame | wsg50_driver/src/transport.cpp:424-463 | A short frame changes nothing; any other answers the request in flight under its id with its status and payload and takes it out, or moves its deadline if it only reports that the command is pending; equals arrival, lookup, note and answer. |
| Transports.Transport.FailAll | wsg50_driver/src/transport.cpp:572-589 | Collects every entry of the in-flight table once, then both queues, empties them, and fails the collected requests one by one in that order. |
| Transports.Transport.Disconnect | wsg50_driver/src/transport.cpp:305-323 | Leaves no connection, no socket and nothing in the containers; every request that was there has a reply, a failure if it had none, and no other promise is touched; the state published is that without a connection. Equals the engine's whole disconnect sequence. |
| Transports.Transport.ConnectSocket | wsg50_driver/src/transport.cpp:289-301 | The state part of a successful connect: socket, published state with the next generation, `connected_`; nothing else changes. |
| Transports.Transport.AnyExpired | wsg50_driver/src/transport.cpp:528-538 | Finds out whether some deadline in flight has passed. |
| Transports.Transport.ExpireRequests | wsg50_driver/src/transport.cpp:526-542 | Disconnects exactly if some deadline has passed at the clock reading taken before the mutex, and then fails everything the containers held. |
| Transports.Transport.QueueStateStreaming | wsg50_driver/src/transport.cpp:544-559 | Queues the five new internal requests in order of their ids, each with the stream payload and the response timeout. |
| Transports.StreamIds | wsg50_driver/src/transport.cpp:550 | They are the streams 0x40, 0x41, 0x43, 0x44 and 0x45. |
| Transports.Transport.constructor | wsg50_driver/src/transport.cpp:547-549 | The stream payload is 0x01 and the update period, lowest byte first; the response timeout is that of the options. |
| TransportRuns.DisconnectLeads | wsg50_driver/src/transport.cpp:305-323 | `disconnect` as written is a run of the engine's steps. |
| TransportRuns.HandlingLeads | wsg50_driver/src/transport.cpp:424-463 | So is `handle_frame`. |
| TransportRuns.ConnectLeads | wsg50_driver/src/transport.cpp:289-301 | So is the state part of `connect_socket`. |
| TransportRuns.CommandLeads | wsg50_driver/src/transport.cpp:106-123 | So is `command`. |
| TransportRuns.ExpiryLeads | wsg50_driver/src/transport.cpp:526-542 | So is `expire_requests`: the clock reading, the check, and the `disconnect` it may end in. |
| TransportRuns.SectionsLead | wsg50_driver/src/transport.cpp:497-559 | The dispatch, its failure section and `queue_state_streaming` are single steps. |
| TransportRuns.LeadsKeepsInv | wsg50_driver/src/transport.cpp:305-323 | Hence all of them keep the engine's invariant. |
| Driver.WaitForSettledState | wsg50_driver/src/main.cpp:558-573 | Stops at the first snapshot that is settled, or at the last before the deadline. |
| Driver.KnownNumbers | wsg50_driver/test/test_transport.cpp:264-270 | The bytes of 123.5, of 100 and of -1 read as these numbers, and those of infinity as none. |
| DriverSteps.DriverStep | wsg50_driver/src/main.cpp:169-206 | Every step of callbacks, initialisation thread, goal threads and engine keeps the driver's invariant. |
| DriverSteps.DriverRun | wsg50_driver/src/main.cpp:169-488 | Every reachable state satisfies it. |
| DriverTheorems.ReadyMeansPerformed | wsg50_driver/src/main.cpp:544-549 | A positive readiness check for a snapshot of generation g implies that all planned commands succeeded, made and accepted on g or later. |
| DriverTheorems.InitialisedOnThisConnection | wsg50_driver/src/main.cpp:169-206 | If g is still connected when the flags are read, acceleration, force and the configured acknowledge and home commands, byte by byte, all succeeded, in this order, on g, whose connection is uninterrupted. |
| DriverCallbacks.ReadySaw | wsg50_driver/src/main.cpp:544-549 | A goal found ready came when the published state was connected, had its reference (bit 0 of the system state) and was of that generation; the initialisation was then read to be successful and, after that, to be for this generation. |
| DriverCallbacks.CheckIsExact | wsg50_driver/src/main.cpp:544-549 | When the check of an arriving goal is over, it has been positive if and only if the snapshot was connected with its reference, the success flag read after it was set, and the generation read after that was the snapshot's. |
| DriverCallbacks.AcceptedWhenReady | wsg50_driver/src/main.cpp:300-323 | Every goal was accepted after a positive check, as the newest; what it asks for does not change. |
| DriverCallbacks.TimerIsExact | wsg50_driver/src/main.cpp:169-185 | A timer callback starts an attempt if and only if the node is not shutting down, no attempt is running, the snapshot is connected and its generation is not the one last initialised; the attempt is for that generation, and the thread of the one before has ended. |
| DriverAttempts.AttemptEndsExactly | wsg50_driver/src/main.cpp:186-205 | An attempt that has ended, and has not been replaced, is marked successful if and only if all planned commands have succeeded. |
| DriverAttempts.RunningExactly | wsg50_driver/src/main.cpp:183-205 | `initialization_running_` is set exactly while an attempt runs or is being started. |
| DriverAttempts.NeverReadyAgain | wsg50_driver/src/main.cpp:169-206 | Once a failed attempt for a generation is stored, no readiness check for that generation succeeds, in any interleaving. |
| DriverAttempts.AttemptIsHeard | wsg50_driver/src/main.cpp:171-191 | If the timer reads a generation while `connected_` is set, and that connection still takes commands and the transport runs, every command of the attempt whose call has returned was accepted on that generation, and every resolved one was resolved by the device; the default values are asked to fit a frame. |
| DriverAttempts.StoredFailureIsDevices | wsg50_driver/src/main.cpp:192-204 | A failure stored for such an attempt is the device's own answer to a command accepted on that generation. |
| DriverRace.UnannouncedMayBeMissed | wsg50_driver/src/transport.cpp:291-301 | From every reachable state in which the timer reads a new generation that is published but not announced, some way to go on refuses the attempt, stores it as failed, and then announces that generation. |
| DriverRace.MissedExactlyIfUnannounced | wsg50_driver/src/transport.cpp:291-301 | Of a timer about to take up a generation: some way to go on refuses its attempt, stores the failure and leaves the connection working if and only if the worker, not being stopped, has yet to set `connected_`; the default values are asked to fit a frame. |
| DriverRace.AttemptMayMissConnection | wsg50_driver/src/transport.cpp:291-301 | A run from the initial state in which the first attempt is refused and stored, and the connection then works. |
| DriverTheorems.EngineIsEmbedded | wsg50_driver/src/main.cpp:490-532 | Every step of the driver is a step of the engine or leaves it alone. |
| DriverTheorems.StopGoesOut | wsg50_driver/src/main.cpp:528-532 | A stop at the head of the priority lane at one moment goes out or is failed within the rest of the worker's iteration, or one more, unless another stop is in flight, whatever the driver does and whoever joins the lane meanwhile. |
| DriverStops.StopIsNext | wsg50_driver/src/main.cpp:365-368 | A goal that has sent no stop and reads that it is being canceled, or that a newer goal has been accepted, sends a stop as the next thing it does, in every interleaving. |
| DriverStops.OneRoundStops | wsg50_driver/src/main.cpp:357-369 | A goal that is canceled or superseded when a wait for its motion times out, and comes back to that wait with the node not shutting down, has sent exactly one stop. |
| DriverStops.StopHasReason | wsg50_driver/src/main.cpp:365-368 | A goal sends a stop only after it has read that it is being canceled or superseded. |
| DriverTheorems.OneTerminalTransition | wsg50_driver/src/main.cpp:330-338 | A goal makes exactly one terminal transition, at its end, and is reported canceled only while being canceled. |
| DriverTheorems.AtMostOneStop | wsg50_driver/src/main.cpp:357-369 | A goal sends at most one motion command and one stop, the stop only after the motion. |
| DriverThread.MotionIsExact | wsg50_driver/src/main.cpp:417-447 | A goal that waits for the mutex sends its motion, byte by byte the one it asks for, if and only if it is the newest when it reads that, the node is not shutting down when it reads that, and the replies to its acceleration and then its force are successes; otherwise it is canceled or aborted without a motion, as the branch says. |
| DriverGoals.MotionIsPrepared | wsg50_driver/src/main.cpp:435-447 | Over every history, a motion has been sent only if the acceleration and the force the goal asks for have been set with success. |
| DriverThread.ReplyIsTaken | wsg50_driver/src/main.cpp:449-465 | A goal leaves its wait to take the reply if and only if its motion command is resolved. |
| DriverThread.LooksAgainForAReason | wsg50_driver/src/main.cpp:558-573 | A goal looks at the fingers again only if they are connected, the motion went well, and they move or are not where it wants them. |
| DriverGoals.SeenWasShown | wsg50_driver/src/main.cpp:466-472 | What a goal judges by is the published state at a moment after it has taken the reply to its motion. |
| DriverThread.MotionIsJudged | wsg50_driver/src/main.cpp:476-486 | A goal whose motion is out is canceled if and only if it reads that it is being canceled once the fingers have settled; otherwise it succeeds if and only if it is then the newest and its reply and what it has seen meet what success needs. |
| DriverGoals.CanceledIsReported | wsg50_driver/src/main.cpp:476-477 | A goal canceled while its motion is under way, while the fingers settle, or after it was turned away is reported as canceled and as nothing else. |
| DriverGoals.NothingSentOnceShutDown | wsg50_driver/src/main.cpp:422-432 | A goal that has not passed its check when the node shuts down sends nothing and does not succeed. |
| DriverTheorems.SuccessIsEarned | wsg50_driver/src/main.cpp:465-486 | Success implies the goal's own motion command succeeded, or blocked the axis while grasping, and the fingers were within tolerance or, grasping, stalled. |
| DriverGoals.VerdictIsExact | wsg50_driver/src/main.cpp:476-486 | A goal that judges without being canceled succeeds if and only if it is the newest, its motion succeeded or blocked the axis while grasping, and the fingers are within tolerance, or stalled while grasping. |
| DriverTheorems.NoSuccessOnceSuperseded | wsg50_driver/src/main.cpp:476-486 | Once a newer goal is accepted no older goal decides on success, in any interleaving. |
| DriverTheorems.SupersededGoalSendsNothing | wsg50_driver/src/main.cpp:422-432 | A goal superseded while it waits for the mutex, or before it reads the generation, never sends any command. |
| DriverTheorems.OneMotionAtATime | wsg50_driver/src/main.cpp:596-609 | No two goals, and no goal and the home service, have unresolved motion commands together. |
| DriverTheorems.OnlyStopsHaveHurried | wsg50_driver/src/main.cpp:528-532 | Only stop commands ever use the priority lane. |
| DriverCommands.OnlyKnownCommands | wsg50_driver/src/main.cpp:490-532 | Whatever is ever asked of the device is a subscription or one of nine commands with its timeout, its lane and, where no goal has a say in it, its bytes. |
| DriverCallbacks.HomeIsExact | wsg50_driver/src/main.cpp:596-609 | A home service that has the mutex and reads that `connected_` is clear ends at once and sends nothing; one that reads that it is set sends the home command and ends when that is resolved. Either way the mutex is free again. |
| DriverCallbacks.HomeHasReason | wsg50_driver/src/main.cpp:596-609 | A home command of the service is sent only with the mutex and after `connected_` was read to be set. |
| DriverTheorems.MotionsNeverOverlap | wsg50_driver/src/main.cpp:195-198 | Hence home, move, grasp and release never await replies together, automatic home included. |
| DriverShutdown.ThreadStepDrops | wsg50_driver/src/main.cpp:112-122 | From the moment the node shuts down, every step of the worker, a goal thread, the initialisation thread or one of their calls lowers one measure. |
| DriverShutdown.IdleStepKeepsRank | wsg50_driver/src/main.cpp:357-369 | Time that passes, goals being canceled and the timer firing in vain do not raise it. |
| DriverShutdown.SomeoneCanGoOn | wsg50_driver/src/main.cpp:582-594 | Until the worker and all threads have ended, one of them can take a step: no deadlock on the mutexes or on a future. |
| DriverShutdown.ShutdownTerminates | wsg50_driver/src/main.cpp:112-122 | From `shutting_down_` set and `running_` cleared on, in every interleaving and however time passes, the threads take at most the measure's number of steps and can go on until all have ended; so the joins of the worker, the initialisation thread and the goal threads complete. |

## Left out

- Socket calls, `poll`, `errno` and partial sends: their outcomes are arbitrary steps; a frame whose transmission broke off counts as transmitted.
- The contents of arriving frames in the engine: one `recv` may complete any frames, up to the number the receiver is proved to keep to; that they are those of the stream is proved separately.
- The reconnect delay and the sleeping condition variable: connecting may be tried at any time.
- The order in which `std::map` visits the in-flight table: every order is allowed.
- Starting the transport again: modelled from the point where its previous worker has ended.
- Message texts, time stamps, publishers, diagnostics, parameter loading and validation, and goal validation: an admitted goal may be rejected or accepted.
- Floating-point rounding: floats travel as their four bytes, and the tolerance test is on the exact number they encode.
- `motion_active_`: it is written but never read.
- The settling deadline: it can end the loop at any time, and the number of sleeps before it is a parameter.
- Driver.WaitForSettledState: the driver's threads are a transition system because their meaning lies in interleavings; only this loop is also given in imperative form.
- EngineDelay.SumIsExact: a tame state has a running transport, a free queue mutex, waiting requests with timeouts that fit a frame, and at most one command id in the priority lane, as in the driver; of other states of a running transport only that the sum suffices where `SumSuffices` is proved (`EngineDrain.DrainsWithinSum`).
- Transports.Transport.Command: the object's methods are proved as one thread executes them; interference between the sections is the transition system's part.
- Receivers.Receiver.Reset: asks for the space bound that every receiver keeps, which the source does not track.
