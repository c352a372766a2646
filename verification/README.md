# A verified model of the camera streamer's logic

This project models the parts of the camera streamer that carry logic of their own, away from the vendor SDK and
FFmpeg, and proves what they keep in every run. Verify it with `dafny verify dfyconfig.toml`.

Each source class is a Dafny class with the same fields and the same branches. Each of its methods is tied to a
function of its inputs and old state; the functions are what the whole-run theorems are about.

| files | what they model |
|---|---|
| `AnnexB`, `AnnexBTypes` | the scanner that takes parameter sets out of an Annex-B stream (section B.1 of ITU-T H.264, Annex B of H.265) |
| `PublisherQueue`, `PublisherQueueExact`, `FfmpegConnection`, `PublisherEndpoint` | the bounded packet queue, the connection, the sending loop and the fan-out |
| `Publisher`, `PublisherSafety`, `PublisherSessions`, `PublisherFrames`, `PublisherGaps`, `PublisherProgress`, `PublisherCaptures` | one endpoint as a machine of interleaved steps, and its whole-run theorems |
| `LinkPolicy`, `RouteIdentity`, `RouteSignal`, `NetworkRoute`, `Failover`, `FailoverLimits` | wired/Wi-Fi failover, the crash-safe route, the two machines together, and two runs that show where their results end |
| `Dictionary`, `IniLine`, `IniLineProofs`, `IniFile`, `IniRoundTrip`, `IniLines`, `IniLoose`, `IniCount`, `IniExact`, `IniText` | the configuration store: slots against a map, lines against their parser, files against their loader |
| `ConfigInteger` | the integer check made before start against the reader used afterwards |
| `Recovery` | the recovery supervisor |
| `FpsText`, `FpsGlyphs`, `LogRotation` | the two-bit text raster and the three-file log |

Every lemma turns automatic induction off: where a proof is by induction, the recursive call is written.

## Assumptions

- Clocks never go backwards, but the stamps of queued packets may come out of order. Sizes, times and presentation times are natural numbers; generations do not wrap.
- Each region under the queue's lock is one step, and so is each read or write of an atomic of the route. The sending loop runs without a lock: taking a packet, checking it, reading the generation, reading readiness, deciding, opening and writing are seven steps, and any step of capture, network, clock or stop may come between two of them.
- A failed `ioctl` leaves the kernel's route table as it was. Other programs leave the target's routes alone; the kernel may drop ours before a turn, between the first inspection and the move, and between the move and the second inspection, but not between the calls of one move.
- What FFmpeg calls, probes, file operations, processes and the clock do is an input: any of them may fail at any time.
- Memory allocation inside the dictionary succeeds; packet allocation may fail.
- File text holds no NUL; characters are octets, unsigned as on the ARM target, and letters are those of the C locale.
- Log files are within their limit at the start, and only this program writes them.
- The token of a new `start` or `restart` has not been used before (it is a process number).

## Findings

- `AnnexB.FramingRoundTrip`: the scan stops once four bytes are left, so a final unit of one byte under a three-byte start code is not seen. The round trip holds exactly when that unit is not the first of a wanted type.
- `ConfigInteger.IntegerExact`: besides canonical decimals the check accepts one more text, `-0`.
- `AnnexB.OneByteIsUnseen` is the smallest such input: one frame of one byte, `7`.
- `FailoverLimits.SessionsCanBeTorn`: the sender reads the route's generation and then its readiness. If the route changes in between, a packet is written on the old connection after others were refused, and the receiver gets a stream with a hole. `PublisherGaps.SessionsTornExactly` says exactly when: there is such a stray packet, always the last of its session, and before it a packet to keep was refused while the network was not ready. `PublisherGaps.SnapshotsKeepSessionsWhole` says that reading both as one would rule it out. FFmpeg may notice the change in its interrupt callback and refuse the write; nothing makes it.
- `FailoverLimits.LastWriteCanBeLate`: a write that was allowed can succeed after the network has gone away. `Failover.WritesBeforeTheLast` says this, too, can only be the last of its session.
- `Recovery.StartsTooSoon`: the log line `retry 1/3 in 10s` can be followed by the start after five seconds. The delay is counted from the clock read at the top of the tick, and stopping a stale process comes between that and the line. `Recovery.LineIsKeptExactly` says that the line is kept, however the run goes on, exactly when the tick spent no time on stopping.
- `IniExact.ComesBackExactly`: which dictionaries come back from their file, for all of them. A missing value comes back empty, so it does not; a section without a name does only as the first one; without any section nothing does, since each key grows by a colon.
- The comment on `dictionary_set` says that setting a value to NULL removes the key. The code keeps the key with no value, and the section entries depend on that; the model follows the code.

## Model

| member | source | states |
|---|---|---|
| AnnexB.ExtractParameterSets | src/publisher/annexb.cpp:22-61 | The nested scanning loops stay inside the buffer, terminate because the position grows, and return the scan whose meaning the lemmas below give |
| AnnexB.ScanUnit | src/publisher/annexb.cpp:25-58 | One turn of the outer loop moves the position forward and leaves the result of the whole scan unchanged, or breaks with it |
| AnnexB.SearchOpen | src/publisher/annexb.cpp:26-37 | Finds the first start code with a byte after it, and the length of that code; none before it is missed |
| AnnexB.SearchClose | src/publisher/annexb.cpp:40-46 | Finds where the unit ends: the next start code, which may be a four-byte one at the very end, or the end of the buffer |
| AnnexB.ExtractOnAnyBytes | src/publisher/annexb.cpp:22-61 | On any bytes: the units are disjoint and in order, begin with a start code and hold no later one; the data is the in-order concatenation of exactly the units that are the first of a wanted type, one per flag found |
| AnnexB.CollectKeepsFirsts | src/publisher/annexb.cpp:48-58 | A flag is found exactly if some unit carries it, and what is kept is the first unit of each, in order |
| AnnexB.UnitsScanned | src/publisher/annexb.cpp:25-46 | Units found are start-coded, hold no start code inside, and do not overlap |
| AnnexB.FramingRoundTrip | src/publisher/annexb.cpp:22-61 | For clean units of any length under any mix of start codes, scanning returns the first frame of each wanted type in order, except exactly when a final one-byte unit under a three-byte code is one of them |
| AnnexB.OneByteIsUnseen | src/publisher/annexb.cpp:25 | The input on which it fails: one frame of one byte under a three-byte code is wanted, and nothing is found |
| AnnexB.CompleteIsNonEmpty | src/publisher/annexb.hpp:20-23 | A complete result has data, so it can replace a cached one |
| AnnexBTypes.H264Flags | src/publisher/annexb.cpp:48-52 | Of all header bytes 128 f + 32 r + k, those of type k = 7 are sequence and k = 8 picture parameter sets, whatever the forbidden and reference bits; no other byte is wanted |
| AnnexBTypes.H265Flags | src/publisher/annexb.cpp:49-53 | Of all header bytes 128 f + 2 k + l, those of type 32, 33 and 34 are the three parameter sets; no other byte is wanted |
| AnnexBTypes.CompleteExactly | src/publisher/annexb.hpp:20-23 | On any bytes the result is complete if and only if units of all required types are found, by the header fields of the standards |
| AnnexBTypes.StreamCompleteExactly | src/publisher/annexb.hpp:20-23 | Of a stream of frames: if and only if a frame of every required type was sent and looked at |
| PublisherQueue.Queue.Push | src/publisher/publisher_queue.hpp:39-54 | All branches of push on the fields, with both limits and the exact byte count kept and no unsigned subtraction that wraps; a packet goes in behind everything there was exactly if bytes, number and age fit and no key frame is awaited but it |
| PublisherQueue.Queue.Pop | src/publisher/publisher_queue.hpp:61-73 | One turn of the waiting loop: closed, waiting, backlog expired, or the oldest packet with its generation |
| PublisherQueue.Queue.ResetLocked | src/publisher/publisher_queue.hpp:95-99 | The backlog is counted as dropped, the generation goes up, a key frame is awaited |
| PublisherQueue.Queue.Reset | src/publisher/publisher_queue.hpp:76 | A reset from outside is the same reset |
| PublisherQueue.Queue.Stop | src/publisher/publisher_queue.hpp:78-83 | Stopping empties the queue for good and keeps its counters |
| PublisherQueue.Queue.constructor | src/publisher/publisher_queue.hpp:31-32 | A new queue is empty, waits for a key frame, and has the default limits |
| PublisherQueue.PushBounded | src/publisher/publisher_queue.hpp:39-54 | The byte count stays the exact sum of queued sizes, and both limits hold after every push |
| PublisherQueue.PopBounded | src/publisher/publisher_queue.hpp:61-73 | A popped packet is the oldest and not older than the age limit, and the byte count stays exact |
| PublisherQueueExact.PushKeepsExactly | src/publisher/publisher_queue.hpp:46-53 | For every bounded queue that is not stopped: a packet goes in behind an untouched backlog exactly if it fits by bytes, number and age and no key frame is awaited but it |
| PublisherQueueExact.PushOutcome | src/publisher/publisher_queue.hpp:39-54 | For every bounded queue: when a push is taken, when it throws the backlog away, and what it counts |
| PublisherQueueExact.PopOutcome | src/publisher/publisher_queue.hpp:61-73 | A packet comes out exactly if there is one, it is not too old and the queue not stopped; what the other three outcomes leave |
| PublisherQueueExact.GenerationMoves | src/publisher/publisher_queue.hpp:39-99 | Over every run the generation goes up exactly at a reset, a push that does not fit, or a pop that finds the oldest packet too old; else what is queued stays in its order |
| PublisherQueueExact.NothingIsLost | src/publisher/publisher_queue.hpp:39-99 | Over every run without those, what came out and what is queued are all the packets from the first key frame on |
| PublisherQueueExact.StopsForGood | src/publisher/publisher_queue.hpp:78-83 | Once stopped the queue takes nothing and gives nothing, whatever follows |
| PublisherQueue.GroupsAreDeliveredWhole | src/publisher/publisher_queue.hpp:39-99 | Over every interleaving of push, pop, reset and stop: what leaves under a generation is a prefix of what entered under it, which starts at a video key frame and is an unbroken run of the packets offered |
| PublisherQueue.PushSpans | src/publisher/publisher_queue.hpp:46-51 | An accepted packet is within the age limit of the oldest one, whatever the order of the stamps, and within the limit and the skew of the stamps of every other |
| PublisherQueue.BacklogSpans | src/publisher/publisher_queue.hpp:39-54 | Over every run, no two packets of the backlog are stamped further apart than the age limit and the furthest a stamp lies before an earlier one |
| PublisherQueue.OfferedIsAccountedFor | src/publisher/publisher_queue.hpp:39-99 | Until the queue stops, the packets offered are the delivered, the counted drops and the queued |
| FfmpegConnection.Connection.constructor | src/publisher/ffmpeg_publisher.cpp:533-549 | A connection starts closed, with nothing cached and no backoff |
| FfmpegConnection.Connection.CloseContext | src/publisher/ffmpeg_publisher.cpp:515-531 | Closing can be repeated; it ends readiness and the audio track and keeps what is cached |
| FfmpegConnection.Connection.SynchronizeQueueEpoch | src/publisher/ffmpeg_publisher.cpp:213-216 | A new queue generation closes the connection; parameter sets kept at capture replace the cached ones |
| FfmpegConnection.Connection.SynchronizeNetworkRoute | src/publisher/ffmpeg_publisher.cpp:303-315 | A new network generation closes the connection, and backs off only if one was live |
| FfmpegConnection.Connection.OpenOutput | src/publisher/ffmpeg_publisher.cpp:325-415 | An open starts from a closed context; on success the frame's time is the origin, on failure nothing is open |
| FfmpegConnection.Connection.WritePacketTo | src/publisher/ffmpeg_publisher.cpp:429-481 | A failed allocation keeps the connection, a failed write closes it and backs off, both report failure |
| FfmpegConnection.Connection.CacheSets | src/publisher/ffmpeg_publisher.cpp:237-252 | Only complete parameter sets of a key frame replace the cached ones |
| FfmpegConnection.Connection.SendVideo | src/publisher/ffmpeg_publisher.cpp:228-261 | Caches, follows the network, opens only on a key frame with parameter sets after the backoff, then writes; on the fields, the write is reached exactly if sending is allowed and the connection survives or may be opened |
| FfmpegConnection.Connection.SendAudio | src/publisher/ffmpeg_publisher.cpp:272-281 | Audio is written exactly if sending is allowed, on a connection that survives, with an audio track, and not before the origin |
| PublisherSafety.OpensAreDelayed | src/publisher/ffmpeg_publisher.cpp:250-257 | Over every run, between a failed open, a failed write or the closing of a live connection by a change of network generation, as told from the events themselves, and any later attempt to open, there are three seconds |
| PublisherSafety.OpensExactly | src/publisher/ffmpeg_publisher.cpp:250-254 | Over every run: an allowed key frame begins an open on a connection that is not live but knows parameter sets if and only if every failure so far lies at least three seconds back |
| PublisherSafety.RetryStays | src/publisher/ffmpeg_publisher.cpp:303-315 | Over every run, however it goes on, the time before which nothing is opened never comes nearer |
| PublisherSafety.StepDelays | src/publisher/ffmpeg_publisher.cpp:250-261 | Each failed open, failed write or live connection closed by the network puts the next open three seconds off, in whatever step it happens |
| PublisherSafety.LoopBodyInSteps | src/publisher/ffmpeg_publisher.cpp:581-601 | Executing the machine's steps from a checked packet on, with any time between them and a move of the network between the two reads, leaves the connection and the outcome of the loop body on one connection |
| PublisherSessions.SyncFacts | src/publisher/ffmpeg_publisher.cpp:213-315 | A packet that goes on has its epoch and the generation just read on the connection, and one that is still live is the one there was; only a stop ends it here |
| PublisherSessions.ProceedFacts | src/publisher/ffmpeg_publisher.cpp:246-280 | What goes on to an open is a key frame with parameter sets on a closed connection, what goes on to a write is what the session keeps, and a live connection passes over nothing else |
| PublisherSessions.DeliverWrites | src/publisher/ffmpeg_publisher.cpp:429-481 | A write that succeeds adds the packet in hand to the last session, and every session stays what its epoch delivered |
| PublisherSessions.RunKeeps | src/publisher/ffmpeg_publisher.cpp:574-601 | Over every interleaving of capture, the seven steps of the sender, network, clock and stop: every session has so far written all it should of its epoch, or its network generation is past, or it will never write again |
| PublisherFrames.SessionsAreWhole | src/publisher/ffmpeg_publisher.cpp:213-281 | Session integrity over every interleaving: from an open to the next close, one queue epoch and one network generation, first the key frame whose time is the origin, then all the video and all the audio from the origin on of an unbroken run of offered packets, with consecutive frame numbers; one stray packet may follow |
| PublisherGaps.SessionsTornExactly | src/publisher/ffmpeg_publisher.cpp:303-315 | Over every run: what was due to the receiver of a session is an unbroken run of offered packets, and it lacks one to keep if and only if the session ends in a stray packet, allowed by a later generation than the one read for it, and between the last regular write and that permission a packet to keep was refused at an instant when the network was not ready |
| PublisherGaps.SnapshotsKeepSessionsWhole | src/publisher/ffmpeg_publisher.cpp:303-315 | If no event of the network falls between the reading of the generation and of readiness, every receiver gets all that was due |
| PublisherGaps.RunGaps | src/publisher/ffmpeg_publisher.cpp:574-601 | Over every interleaving, each packet to keep that the live session has passed over was refused, is lost with its epoch, or is the one in hand |
| PublisherGaps.SuccessIsReceived | src/publisher/ffmpeg_publisher.cpp:259-280 | Each successful write adds its packet to what the receiver of the last session got, and nothing is written after a stray packet |
| PublisherProgress.TakesExactly | src/publisher/ffmpeg_publisher.cpp:580 | Over every run the sender takes the oldest packet exactly if there is one, not too old, in a queue that is not stopped |
| PublisherProgress.PacketIsSentExactly | src/publisher/ffmpeg_publisher.cpp:574-601 | Progress, over every run: with nothing in between and no call failing, the packet in hand reaches the receiver if and only if its epoch is current, nothing is stopping, the network is ready, and it can be written on the live connection or one can be opened for it |
| PublisherProgress.FailureEndsGroup | src/publisher/ffmpeg_publisher.cpp:594-598 | Over every run, exactly a failed open, allocation or write, or an exception, makes the sender throw the backlog away and await a key frame |
| PublisherProgress.StoppingStays | src/publisher/ffmpeg_publisher.cpp:580-581 | Once the program is stopping or the queue stopped it stays so, and no packet is cleared for sending any more |
| PublisherCaptures.VideoIsOffered | src/publisher/ffmpeg_publisher.cpp:655-679 | A frame of 1 byte to 2 MiB is offered to the queue with its data, time and the parameter sets known then; any other, a failed allocation or a stop under way ends the group |
| PublisherCaptures.AudioIsOffered | src/publisher/ffmpeg_publisher.cpp:689-701 | Audio of those sizes is offered with its data and time, audio of others passed over |
| PublisherCaptures.AudioIsCaptured | src/publisher/ffmpeg_publisher.cpp:689-701 | Over every run each accepted audio packet is a piece that was captured, with its data and time |
| PublisherCaptures.DiscardEndsGroup | src/publisher/ffmpeg_publisher.cpp:705-707 | Discarding the channel empties the queue under a new generation |
| PublisherFrames.ParameterSetsAreCurrent | src/publisher/ffmpeg_publisher.cpp:655-679 | Whenever a connection opens its extradata is the complete parameter sets of the latest key frame of the channel that was analysed and carried all of them, even if the queue dropped that frame |
| PublisherFrames.RunNumbers | src/publisher/ffmpeg_publisher.cpp:655-679 | Over every run, each accepted video packet shows the frame it was made of and the parameter sets known then, and frames within a group are consecutive |
| PublisherEndpoint.ChannelFanout.EnqueueVideo | src/publisher/ffmpeg_publisher.cpp:655-679 | Every queue of the channel sees the same push or the same reset; complete parameter sets are kept even if a later allocation fails; the result is 0 exactly if every queue took the packet |
| PublisherEndpoint.ChannelFanout.EnqueueAudio | src/publisher/ffmpeg_publisher.cpp:689-701 | Refused audio leaves every queue alone, audio that cannot be copied ends every group, other audio is pushed to every queue |
| PublisherEndpoint.ChannelFanout.PushTo | src/publisher/ffmpeg_publisher.cpp:566-569 | A push to one endpoint leaves the others alone |
| PublisherEndpoint.ChannelFanout.FanOut | src/publisher/ffmpeg_publisher.cpp:674-677 | All queues get the packet, each by its own limits; the result is 0 exactly if all took it |
| PublisherEndpoint.ChannelFanout.DiscardChannel | src/publisher/ffmpeg_publisher.cpp:705-707 | Every queue of the channel is reset once |
| PublisherEndpoint.ChannelFanout.constructor | src/publisher/ffmpeg_publisher.cpp:618-636 | A manager starts without parameter sets, over distinct queues |
| PublisherEndpoint.Endpoint.constructor | src/publisher/ffmpeg_publisher.cpp:560-562 | An endpoint owns a new queue with the default limits and a closed connection |
| PublisherEndpoint.Endpoint.Take | src/publisher/ffmpeg_publisher.cpp:580 | The sender takes what the queue gives, waits, or leaves when the queue is closed |
| PublisherEndpoint.Endpoint.Check | src/publisher/ffmpeg_publisher.cpp:581 | A packet whose epoch was cancelled is dropped before it reaches the connection |
| PublisherEndpoint.Endpoint.Deliver | src/publisher/ffmpeg_publisher.cpp:590-594 | The loop body on the fields of the connection: the epoch is synchronized before the packet is written, and a failure is remembered for the reset |
| PublisherEndpoint.Endpoint.Recover | src/publisher/ffmpeg_publisher.cpp:594-598 | After a failure the backlog is thrown away and the loop goes on |
| LinkPolicy.Policy.constructor | src/network/network_route.hpp:42-44 | A new policy has an empty history |
| LinkPolicy.Policy.Choose | src/network/network_route.hpp:22-34 | The counters always equal the trailing failure runs capped at three, the time the start of the trailing wired run, and the choice is the one those histories demand |
| LinkPolicy.Policy.Usable | src/network/network_route.hpp:38-40 | A link is usable until its last three samples failed |
| LinkPolicy.FailOversArePaidFor | src/network/network_route.hpp:31-33 | Whatever the samples, three times the number of moves from wired to Wi-Fi is at most the number of wired failures |
| LinkPolicy.ReturnsAreEarned | src/network/network_route.hpp:33 | In every history, each move back to wired needs the link itself and ten unbroken seconds of it, or three straight Wi-Fi failures |
| LinkPolicy.WiredUpMeans | src/network/network_route.hpp:24-30 | The recovery time is that of the first of the samples that have found the link up without a break |
| LinkPolicy.WifiDownMeans | src/network/network_route.hpp:23 | The counted samples all found Wi-Fi down |
| LinkPolicy.ChoosesExactly | src/network/network_route.hpp:22-34 | By the samples alone: without a link the first reachable one, wired before Wi-Fi; from wired to Wi-Fi if and only if the last three lost wired and the last reached Wi-Fi; from Wi-Fi to wired if and only if that is earned |
| LinkPolicy.UsableExactly | src/network/network_route.hpp:38-40 | A link is usable exactly if its last three samples have not all failed |
| RouteIdentity.StreamRouteState | src/network/route_identity.hpp:31-48 | One pass over the table gives -1 exactly if the target has no route, the interface exactly if its only route is ours, and a conflict otherwise or if the table cannot be read |
| RouteIdentity.ConflictAt | src/network/route_identity.hpp:43-44 | A row that is not ours, or a second one, is a conflict whatever follows |
| RouteIdentity.FoundPrinted | src/network/route_identity.hpp:36-46 | Reading a printed table finds exactly the rows for the target, in order |
| RouteIdentity.StateExactly | src/network/route_identity.hpp:31-48 | By the lines themselves: no route exactly if none goes to the target, the interface exactly if the only one is ours there, and a conflict otherwise |
| RouteIdentity.OwnedExactly | src/network/route_identity.hpp:18-23 | Which rows are ours, field by field |
| RouteIdentity.OwnRowsExactly | src/network/route_identity.hpp:21-23 | The two rows that are ours, one for each interface |
| NetworkRoute.Adopt | src/network/network_route.cpp:49-68 | The scan at start takes over the target's only route if the record owns it, takes none if there is none, and refuses otherwise |
| NetworkRoute.AdoptionSnoc | src/network/network_route.cpp:59-65 | How one more row decides: another route is skipped, an owned first one is taken, anything else is refused |
| NetworkRoute.SafeIsAdopted | src/network/network_route.cpp:45-68 | From a crash-safe state the next start never refuses and takes over exactly the route that is there |
| NetworkRoute.AdoptedIsSafe | src/network/network_route.cpp:45-68 | Conversely, what a start takes over is a single route that the record names |
| NetworkRoute.CrashAnywhere | src/network/network_route.cpp:127-155 | At every instant of a switch, repair, rollback or teardown the process may die, and the next start takes over exactly what it left |
| NetworkRoute.Handshake | src/network/network_route.cpp:173-201 | If the pair is seen ready twice under one generation, it was ready all along, on the same interface, and no two different source addresses were recorded |
| NetworkRoute.WithoutOwn | src/network/network_route.cpp:149-151 | Deleting our only route leaves the target without any |
| NetworkRoute.Route.constructor | src/network/network_route.cpp:45-69 | The object starts where adoption left the machine: crash-safe, not ready |
| NetworkRoute.Route.Start | src/network/network_route.cpp:45-69 | Start refuses exactly if the table cannot be read or adoption does |
| NetworkRoute.Route.WriteRecord | src/network/network_route.cpp:129-137 | Whatever is left of a record that could not be written, every instant of writing it is crash-safe, since no route is installed |
| NetworkRoute.Route.Install | src/network/network_route.cpp:138-149 | The route goes in only when the record names it |
| NetworkRoute.Route.AddRoute | src/network/network_route.cpp:127-155 | The record is written before the route is added; however either fails, every instant in between is crash-safe |
| NetworkRoute.Route.DeleteRoute | src/network/network_route.cpp:127-155 | Success leaves the target without a route, also when it was already gone; failure leaves it as it was |
| NetworkRoute.Route.Switch | src/network/network_route.cpp:178-186 | Delete, add, roll back: every instant is crash-safe, which calls fail decides whether the interface ends as the new one, the old one or none, and the table has that route and no other of the target |
| NetworkRoute.Route.RollBack | src/network/network_route.cpp:183-185 | Either the old route is back or no interface is active |
| NetworkRoute.Route.Move | src/network/network_route.cpp:173-187 | The route is changed only after readiness was withdrawn and the generation counted up, and the next try waits three seconds |
| NetworkRoute.Route.Withdraw | src/network/network_route.cpp:194-195 | Readiness is withdrawn before the generation is counted up, so no ready instant shows the new number |
| NetworkRoute.Route.Inspect | src/network/network_route.cpp:168-169 | The state read is about the table there is: none, ours on the active interface, or a conflict |
| NetworkRoute.Route.Adjust | src/network/network_route.cpp:168-189 | The route is changed exactly for a reachable candidate, outside a conflict, when there is something to do and the delay has passed; otherwise nothing changes but the delay after a conflict |
| NetworkRoute.Route.Publish | src/network/network_route.cpp:190-201 | Ready exactly if the active interface has the installed route and is usable; the generation counts up exactly for a change of that or of a known source address |
| NetworkRoute.Route.Turn | src/network/network_route.cpp:160-206 | A whole turn, with the kernel dropping the route before it, during it or after the move, keeps the trace crash-safe and the handshake; which link, readiness, source address, generation and delay it ends with is told exactly, repairs of a missing route included |
| NetworkRoute.Route.Run | src/network/network_route.cpp:157-208 | Any number of turns does; fail-overs are paid for by three wired failures each, every return is earned, and the history of links and delays is the one the turns give |
| NetworkRoute.MovesWhenCalled | src/network/network_route.cpp:173-187 | In any such history, a turn whose calls succeed and that no turn of the last half minute can have put off ends on the link the policy calls for |
| NetworkRoute.Route.TearDown | src/network/network_route.cpp:72-82 | The destructor removes only a route that is ours, and leaves none exactly if the table can be read and the call succeeds |
| Failover.SessionsStayOnOneRoute | src/publisher/ffmpeg_publisher.cpp:303-315 | From the instant the first packet of a session was allowed to the instant the last one was, the network was ready under the session's generation, on one interface, with at most one source address recorded; a stray packet is not one of these |
| Failover.WritesBeforeTheLast | src/publisher/ffmpeg_publisher.cpp:303-315 | So every write of a session before its last was made on that route |
| Failover.StraysComeLate | src/publisher/ffmpeg_publisher.cpp:303-315 | A stray packet is allowed after all others of its session were written, by a later generation |
| FailoverLimits.LastWriteCanBeLate | src/publisher/ffmpeg_publisher.cpp:303-315 | A run in which the last write of a session succeeds when the network is gone |
| FailoverLimits.SessionsCanBeTorn | src/publisher/ffmpeg_publisher.cpp:303-315 | A run in which three frames are delivered to the sender and the receiver gets the first and the third |
| Dictionary.Dictionary.constructor | common/param/dictionary.c:147-163 | A new dictionary is the empty map with at least 128 slots |
| Dictionary.Dictionary.Find | common/param/dictionary.c:319-334 | A slot is found exactly if the map has the key; comparing hashes first loses none |
| Dictionary.Dictionary.Get | common/param/dictionary.c:206-223 | Lookup in the map, telling a missing key from a key without a value |
| Dictionary.Dictionary.Grow | common/param/dictionary.c:67-99 | Growth keeps the map, the stored hashes and the count |
| Dictionary.Dictionary.FreeSlot | common/param/dictionary.c:285-291 | The circular search from n ends, because some slot is free |
| Dictionary.Dictionary.Put | common/param/dictionary.c:292-296 | Filling a free slot inserts into the map |
| Dictionary.Dictionary.Set | common/param/dictionary.c:251-298 | Map update, whether the key was there or not and through growth; keys stay distinct, hashes match, n is the number of used slots |
| Dictionary.Dictionary.Clear | common/param/dictionary.c:336-343 | Freeing a slot removes its key from the map |
| Dictionary.Dictionary.Unset | common/param/dictionary.c:311-345 | Map removal; nothing happens for a missing key |
| Dictionary.MapHolds | common/param/dictionary.c:206-223 | With distinct keys the map has a key exactly if a slot holds it, and gives that slot's value |
| Dictionary.MapUpdate | common/param/dictionary.c:261-297 | Writing one slot is an update of the map and keeps keys distinct |
| Dictionary.MapRemove | common/param/dictionary.c:336-343 | Freeing one slot removes one key |
| Dictionary.UsedIsSize | common/param/dictionary.c:296 | The count of used slots is the size of the map |
| IniLine.StrStrip | common/param/iniparser.c:90-109 | White space goes at both ends and only there |
| IniLine.StrLwc | common/param/iniparser.c:45-57 | At most len - 1 characters are kept, in lower case |
| IniLine.ReadValue | common/param/iniparser.c:645-676 | The quoted, plain and empty formats, tried in order, read the value ValueExact is about |
| IniLine.IniparserLine | common/param/iniparser.c:624-684 | Every line is empty, a comment, a section, a value or an error, by the formats of the source, including the section buffer an empty name leaves as it was |
| IniLineProofs.LineExact | common/param/iniparser.c:311 | A printed key and value read back as themselves exactly if the key and the value each survive and the line does not look like a section |
| IniLineProofs.SectionExact | common/param/iniparser.c:305 | A printed section name reads back as itself exactly if it is trimmed, lower case and free of brackets that end it |
| IniLineProofs.ValueExact | common/param/iniparser.c:645-676 | Which values survive being stripped and scanned: exactly the trimmed ones without comment characters that do not open a quote |
| IniLineProofs.KeysRead | common/param/iniparser.c:645-676 | Every key the parser yields is non-empty, trimmed, lower case and free of the assignment character |
| IniFile.IniparserLoad | common/param/iniparser.c:700-800 | The loading loop, line buffer, continued lines and refusals included, builds the dictionary the file text stands for, or none; none also if the file cannot be opened or reading breaks off |
| IniFile.LoadTurn | common/param/iniparser.c:735-788 | One line: skipped, too long, continued, or accepted |
| IniFile.AcceptLine | common/param/iniparser.c:764-786 | A section becomes a key with no value, a value goes under its section, an error is counted |
| IniFile.Getnsec | common/param/iniparser.c:162-177 | The number of keys without a colon |
| IniFile.Getsecname | common/param/iniparser.c:193-213 | The n-th of them in slot order, or none |
| IniFile.DumpEntries | common/param/iniparser.c:306-313 | Exactly the entries of one section are printed, in slot order |
| IniFile.DumpSection | common/param/iniparser.c:294-316 | A section is printed with its entries, if its lower-case name is found |
| IniFile.DumpBare | common/param/iniparser.c:265-273 | Without any section the keys are printed as they are |
| IniFile.DumpIni | common/param/iniparser.c:256-280 | The whole file, section by section |
| IniRoundTrip.DumpThenLoad | common/param/iniparser.c:256-316 | Loading the dumped text of any dictionary whose keys survive gives the same keys, with each value as it reads back |
| IniRoundTrip.RoundTripExact | common/param/iniparser.c:700-800 | The loaded map is the dumped one exactly if every value survives |
| IniRoundTrip.ReadsLine | common/param/iniparser.c:734-763 | A complete line that fits the buffer is read alone, whatever follows it |
| IniExact.ComesBackExactly | common/param/iniparser.c:256-316 | For every dictionary, whatever its keys and values hold: loading its dumped file gives it back if and only if every key survives, the one nameless section being first, and every value does |
| IniExact.SaveAndLoad | common/param/iniparser.c:256-280 | The same of the program: a dictionary saved and loaded again is what it was exactly then |
| IniExact.KeysAreGood | common/param/iniparser.c:624-684 | If a dictionary with sections comes back, every section of it is one the parser can name and every entry has a key that survives, in a section that is there |
| IniExact.NotContinued | common/param/iniparser.c:746-763 | If it comes back, no line of its file asked to be continued: an entry carried over is read with a value that is too short |
| IniCount.ReturnsComplete | common/param/iniparser.c:700-800 | If it comes back, every line of its file gave a key of its own, every key came from one, and none was joined to another or taken for a section |
| IniLoose.LooseNeverReturns | common/param/iniparser.c:265-273 | A dictionary without any section never comes back unless it is empty, whatever its keys and values hold |
| IniLines.DumpIsLines | common/param/iniparser.c:256-316 | Every dumped text is its lines in order: blank, section, entry, or bare key |
| IniLines.LoadLines | common/param/iniparser.c:700-800 | A file of newline-free lines loads as what its lines add up to, carried over, cut off and refused as they may be |
| IniLines.LoadClean | common/param/iniparser.c:734-788 | Nothing that is loaded from any text holds a newline |
| IniText.CommentsAreSkipped | common/param/iniparser.c:636-638 | In any file, a blank line or one that begins with a number sign or a semicolon might as well not be there |
| IniText.PlainEntryIsLoaded | common/param/iniparser.c:639-675 | After any loadable lines, a heading and an entry, with white space anywhere and with or without a comment, add exactly that section and that key and value |
| IniText.QuotedEntryIsLoaded | common/param/iniparser.c:645-652 | The same with the value in quotes of either kind |
| IniText.RefusedExactly | common/param/iniparser.c:735-800 | A file of lines that are not continued is refused if and only if one is too long for the buffer, or neither blank, comment, section nor assignment |
| IniText.MalformedRefuses | common/param/iniparser.c:774-800 | One such line makes the whole file be refused, whatever follows |
| IniText.ContinuedIsJoined | common/param/iniparser.c:756-761 | A line that ends in a backslash and the next one are read as one line without it |
| ConfigInteger.IntegerExact | src/config/config_validation.hpp:34-47 | A text is accepted as n exactly if n is within the bounds and the text is its canonical decimal, or `-0` for 0 |
| ConfigInteger.CheckAgreesWithReader | common/param/iniparser.c:450-488 | Whatever the check accepts, the base-0 reader used while running reads as the same number |
| ConfigInteger.ReadCanonical | src/config/config_validation.hpp:43 | A sign and canonical digits read alike in base 10 and base 0 |
| Recovery.Supervisor.constructor | scripts/S98gzh_ipc:210 | The monitor begins with empty memory |
| Recovery.Supervisor.MonitorTick | scripts/S98gzh_ipc:151-203 | One tick with all its branches, on the monitor's variables and the intent file, and the time at which it writes its line |
| Recovery.Supervisor.BlockRecovery | scripts/S98gzh_ipc:144-147 | Blocking rewrites the intent under the same token |
| Recovery.BudgetHolds | scripts/S98gzh_ipc:151-203 | Over every interleaving of commands, ticks and monitor deaths there are at most three automatic starts since the budget was last renewed, and the counter is exactly their number |
| Recovery.TicksAreTrue | scripts/S98gzh_ipc:151-203 | Over every run, a tick under a run intent is logged as healthy, in grace, blocking, too early, absence or start exactly if what it met calls for that: which process in which phase with which heartbeat age, whether stopping it succeeded, whether others overlap, and the starts so far |
| Recovery.StartsAreDelayed | scripts/S98gzh_ipc:188-196 | Each automatic start is under a run intent, 10, 20 or 30 seconds after the clock read by the tick that logged the absence, which nothing has undone since; after its line it is that less the time of stopping, and no less if no process was met; at both no process ran, or one that was stopped, and no other one overlapped |
| Recovery.LineIsKeptExactly | scripts/S98gzh_ipc:178-193 | After a tick that logged an absence, every later start in every continuation at the monitor's pace keeps the delay its line promised, if and only if the tick spent no time on stopping a stale process |
| Recovery.StartsTooSoon | scripts/S98gzh_ipc:178-193 | The run in which `retry 1/3 in 10s` is written at 120 s and the service started at 125 s |
| Recovery.RefillsAreEarned | scripts/S98gzh_ipc:163-168 | Healthy time renews the budget only after 300 seconds in which every tick met the same process, ready and with a heartbeat younger than 60 seconds |
| Recovery.BlockedStays | scripts/S98gzh_ipc:116-120 | Once blocked, the monitor does nothing until an operator's command |
| Recovery.RunKeeps | scripts/S98gzh_ipc:207-268 | What the monitor remembers is what the log of events says, in every run |
| Recovery.CommandsExactly | scripts/S98gzh_ipc:254-268 | What each command leaves in the intent file and in the log, and whether a monitor runs after it |
| Recovery.StoppedStays | scripts/S98gzh_ipc:259-264 | After a stop, or a restart that could not stop the service, nothing is done about it until the next start |
| Recovery.TicksAreLogged | scripts/S98gzh_ipc:207-222 | Every tick of a living monitor is logged with what it met, and without a run intent it changes nothing |
| Recovery.DeathExactly | scripts/S98gzh_ipc:207-232 | A monitor that died does nothing until a start makes a new one, with empty memory |
| FpsText.Draw | src/osd/fps_text.hpp:14-48 | For every text and canvas: each pixel decodes to 3 exactly on the clipped, doubled glyph dots and to 0 elsewhere, and nothing past the canvas is written |
| FpsText.DrawGlyph | src/osd/fps_text.hpp:31-46 | One character adds its ink and changes no other pixel |
| FpsText.DrawDot | src/osd/fps_text.hpp:38-46 | One dot lights its four pixels, as far as they are on the canvas |
| FpsText.DrawHalfRow | src/osd/fps_text.hpp:41-45 | One of its stores lights its two pixels, or none if they are off the canvas |
| FpsText.Lights | src/osd/fps_text.hpp:44-45 | One store lights two neighbouring pixels of one row and leaves every other pixel |
| FpsText.InkOfOneCharacter | src/osd/fps_text.hpp:40-43 | Ink stays in its own cell, so characters never overlap |
| FpsGlyphs.PicturesExactly | src/osd/fps_text.hpp:16-35 | What each of the fifteen characters looks like, dot by dot; every other one is a gap |
| FpsGlyphs.InkExactly | src/osd/fps_text.hpp:30-46 | A pixel is inked exactly if a dot of a character that fits whole in the width covers it, two by two pixels a dot |
| FpsGlyphs.FourPixels | src/osd/fps_text.hpp:44-45 | A byte holds four pixels, the leftmost in its highest bits |
| LogRotation.LogPort.ElogPortInit | src/logging/elog_port.c:56-63 | Opening keeps what is in the file |
| LogRotation.LogPort.ElogPortDeinit | src/logging/elog_port.c:68-73 | Closing keeps the files |
| LogRotation.LogPort.PrepareLog | src/logging/elog_port.c:24-38 | Rotation with every rename or open that can fail |
| LogRotation.LogPort.ElogPortOutput | src/logging/elog_port.c:81-95 | One record, cut to the limit, wholly or partly written; any failure, of the flush too, ends file output |
| LogRotation.PrepareWhole | src/logging/elog_port.c:24-38 | Rotation loses at most the oldest backup, however it fails, and leaves room for the record |
| LogRotation.LogIsSuffix | src/logging/elog_port.c:81-95 | After any outputs, failures and restarts, the backups and the log joined oldest first are the end of everything ever written, and no file exceeds 1 MiB |
| LogRotation.LogRetains | src/logging/elog_port.c:24-38 | Starting without backups, either nothing is lost or more than the limit less one record of the latest bytes is kept |
| LogRotation.OutputKeepsAll | src/logging/elog_port.c:81-90 | If the calls succeed a record goes in whole, but for what exceeds 1 MiB, behind the file or, with the files moved up by one, as a new one |
| LogRotation.OutputGoesOnExactly | src/logging/elog_port.c:81-95 | File output goes on exactly if every call that was needed succeeded |
| LogRotation.OpensAndCloses | src/logging/elog_port.c:56-73 | File output begins exactly if the file opens and ends with closing; neither touches what is in the files |

## Left out

- The Rockchip SDK, RockIVA and the FPS overlay's region calls: thin calls with no logic of their own.
- FFmpeg's internals: muxing, rescaling of times, packet durations and flags, URL splitting, trailers, deadlines and the interrupt callback; only success, failure and what follows are modelled.
- Sockets and probes: `reachable` is any boolean with any address. Parsing /proc/net/route is a list of rows, some unreadable.
- The checks of host, ports and user in the constructor of `NetworkRoute`, and its thread's start and stop.
- Mutexes, condition variables and thread start-up: the sending loop is its steps, taken in any order with the others.
- `serial` of a packet, `spent` of the signal, `allowed` and `done` of a write, the sessions, the refusals and the logs of events are not in the source; they only record.
- An exception thrown while a packet is pushed is a reset of that queue, as the handler makes it; one thrown in the sending loop can come before the packet is looked at, after it was allowed, and while it is written, but not while an output is opened.
- PublisherEndpoint.ChannelFanout.FanOut: an exception in one endpoint's `enqueue` is part of the one-endpoint machine, not of this class.
- PublisherEndpoint.ChannelFanout.constructor: which endpoints the configuration asks for, and an FFmpeg network that cannot be initialised, are not modelled.
- The rate-limited log lines of the sending loop and of `write_video`, and the text of every log message.
- IniLine.StrStrip: strings are values here, so writing in place and the C buffers' sizes are not modelled; every buffer the loader uses is at least as long as the line.
- IniFile.DumpBare: a missing value prints as the C library in use prints it, `(null)`, which C leaves undefined.
- Dictionary.Dictionary.Set: allocation failure, and with it the error result, is not modelled.
- Saving the configuration (`rk_param_save`: fsync, rename, permissions), reading of doubles and booleans, and the list of range checks in `validate`.
- ConfigInteger.CheckAgreesWithReader: other locales and 32-bit `long` beyond the type's bound given as a parameter are left to that parameter.
- `recovery_log`, the status command, and what `start_service` and `stop_service` do to the process: their outcome, and how long stopping takes, are inputs.
- EasyLogger's formatting, `MediaHealth` and `ServiceState`.
