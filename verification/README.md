# shell-bucket: a verified model of its protocols

shell-bucket runs a wrapper on the local machine and an `sb mux` on every host of an ssh chain. They
talk over three layers, and this project models each and proves what it is for.

**The UDP backhaul** (`Arq`, `Wire`, `Frames`, `Backhaul`). `Arq` is a reliable byte stream with an injected
clock and no I/O. `ArqNetwork` puts two of them on a network that may lose, duplicate, delay and reorder
datagrams: the network is the set of every datagram ever sent, a receive may name any of them any number of
times, or bytes nobody sealed. `ArqSafety`, `ArqArrivals`, `ArqKarn`, `ArqTimers`, `ArqNonces`, `ArqIdle` and
`ArqProgress` hold for every run of it: what is delivered, what early segments are for, what is measured and
resent when, that idle ends fall silent, and that everything arrives. `Frames` restores frame boundaries, and
`Backhaul` adds compression, the queue of unconfirmed frames and the revert onto the in-band channel.
`RevertNetwork` is the protocol between two backhauls on a lossy network; `RevertWire` gives each its real
in-band channel, a stream of escape sequences and keystrokes read in chunks of any size by a scanner; and
`Revert` proves exactly when a revert loses, repeats and reorders nothing, for every run of sends, datagrams,
timers, deaths, keystrokes and reads: if and only if each frame it puts on the stream is put there in the clear.
`BackhaulRounds`, `BackhaulProgress` and `BackhaulRuns` are about a path that works: heartbeats keep both ends
up, all that is sealed goes to the socket, and from every reachable moment with both paths alive, datagrams that
get through bring every frame across.

**The terminal stream** (`Apc`, `ApcLaws`, `ApcFrames`, `MuxStream`, `Marker`, `FileDelivery`, `Stun`, `Text`).
`Apc` is the four-state scanner that separates terminal bytes from the protocol's escape sequences, `ApcLaws`
what it keeps, and `ApcFrames` what is heard of frames sent among terminal bytes, whole or not. `MuxStream` is
the stream a mux writes upward, the child's stripped output mixed with the mux's own frames. `Marker` is the
search for the BEGIN sequence with a bounded buffer, `FileDelivery` the base64 line protocol and its reader,
`Stun` the attribute walk of RFC 5389.

**The routing tree** (`Routing`, `RoutingTree`, `RoutingOrder`, `RoutingLaws`, `RoutingCloses`, `RoutingGone`,
`RoutingReplies`, `ReplyLaws`, `TalkLaws`, `TalkBreaks`, `LateReply`, `Survey`). `Routing` is one mux's label
swap table. `RoutingTree` is any tree of muxes under one wrapper, where clients' lines, relays, replies and
departures interleave in any way and the wrapper answers what it has heard as often as it likes. Requests:
`RoutingOrder` is what each mux keeps about order and ids, `RoutingLaws` what that gives the clients,
`RoutingCloses` how closes travel, `RoutingGone` that a lost connection leaves no tunnel open. Replies:
`RoutingReplies` is what each mux passes down, `ReplyLaws` and `TalkLaws` what clients are handed of what was
answered, `TalkBreaks` and `LateReply` when they are not. `Survey` has the route texts that collect conduit ids
on the way up and spend them on the way down.

An object of the source is a class whose methods update fields and run the source's loops; each method's
contract says that the new state is a function of the old one, and the theorems are about runs of those
functions. The pure encoders are functions. `dafny verify dfyconfig.toml` checks the whole project.

Six promises hold only under a condition; each has a failing input, and for all but the last the condition
is exact at every moment.

- `ApcLaws.EnvelopeRoundTrip`, `ApcFrames.FramesCross`: frames survive their escape sequences if and only if
  none has an `ESC \` pair, or a BEL except directly after an ESC. A single BEL does not
  (`ApcFrames.BelGarbled`).
- `ApcFrames.HeardExactly`, `ApcFrames.EnvelopeHeard`: frames put on a stream between keystrokes are heard if and
  only if each is of that kind and is put there while the scanner at the other end is between sequences, that
  is in the clear. The keystroke direction is not filtered (src/shell_bucket/wrapper.py:705 beside :660 and
  :595), so an ESC key or half an arrow key before a frame loses the frame (`ApcFrames.EscapeLoses`). Keys that
  a conduit writes between two reads of one frame land inside it (`ApcFrames.KeysLandInside`).
- `Revert.LosslessRevert`: a revert puts both ends back in-band and hands over every frame if and only if each
  frame put in-band, the two notices and what did not arrive over UDP, was put there in the clear. With an ESC
  typed before the notice, one end waits in its revert and the other stays up (`Revert.LoneEscape`). A mux that
  forwards its child's stripped output needs only safe frames (`Revert.StrippedClear`). Over UDP any frame
  passes.
- `Wire.BodyRoundTrip`: a payload survives its byte layout if and only if its stream positions fit 64 bits;
  2^64 reads back as 0 (`Wire.PositionWraps`).
- `RoutingLaws.OneIdExactly`: a tunnel keeps one request id at a mux above its own if and only if nothing
  follows its closing frame there, and `RoutingCloses.CloseLastKeepsId` says it suffices that nothing follows
  it at the tunnel's own mux. A client that closes its tunnel and then goes away has it closed twice, and the
  second close is relayed under a new id (`RoutingLaws.TunnelSplits`). No client that ships sends `TUN-CLOSE`;
  the mux does (native/sb/src/main.v:5137), so it takes an authenticated client that types it.
- `TalkLaws.TalkInOrder`: a client is handed the answers to its tunnel in order, with no gap, while the tunnel
  has one id. After a split an answer under the first id may be dropped and a later one under the second
  delivered (`LateReply.LaterOnly`), and whenever a talk has a second id whose way down is whole, some further
  answers do that (`TalkBreaks.OrderBreaks`); under each id alone the answers come in order in every run
  (`ReplyLaws.RepliesInOrder`).

`Revert.PruneWouldLoseHeld` shows what the guard on pruning is for: run on held frames, pruning drops
frames the peer does not have.

Where native/sb/README.md and the code differ, the model follows the code: the `M:<hop>` and `ANNOUNCE`
frames of native/sb/README.md:95 and native/sb/README.md:133 do not occur in native/sb/src/main.v.

## Model

| member | source | states |
|---|---|---|
| Arq.Endpoint.constructor | src/shell_bucket/backhaul.py:77-97 | a new endpoint: nothing sent or received, timeout 100 ms |
| Arq.Endpoint.Seal | src/shell_bucket/backhaul.py:117-122 | seals one payload with the next nonce, queues it, and settles the owed ack |
| Arq.Endpoint.Fill | src/shell_bucket/backhaul.py:124-130 | the fill loop is the repeated single step: while bytes are pending and fewer than the window are in flight, cut and send the next segment |
| Arq.Endpoint.Send | src/shell_bucket/backhaul.py:132-134 | appended bytes join the stream and the window is filled |
| Arq.Endpoint.UpdateRtt | src/shell_bucket/backhaul.py:141-148 | the smoothed round trip, its variation and the clamped timeout after one sample; no other field |
| Arq.Endpoint.Retransmit | src/shell_bucket/backhaul.py:150-156 | re-sends the oldest segment whole, counts it and restamps it; nothing if none is unacknowledged |
| Arq.Endpoint.HandleAck | src/shell_bucket/backhaul.py:158-168 | drops the covered segments, samples those sent once, counts duplicates and resends on the third |
| Arq.Endpoint.FindHit | src/shell_bucket/backhaul.py:187-188 | the first buffered piece that contains the next wanted byte |
| Arq.Endpoint.DrainAt | src/shell_bucket/backhaul.py:189-191 | takes that piece: its new bytes to the inbox, the piece out of the buffer |
| Arq.Endpoint.Drain | src/shell_bucket/backhaul.py:183-193 | the restarting scan takes pieces until none contains the next wanted byte |
| Arq.Endpoint.IsBuffered | src/shell_bucket/backhaul.py:174 | whether a piece with this offset is already buffered |
| Arq.Endpoint.Accept | src/shell_bucket/backhaul.py:170-181 | old data ignored, later data buffered if within the window and new, overlapping data delivered and drained |
| Arq.Endpoint.Receive | src/shell_bucket/backhaul.py:195-206 | unauthentic and control datagrams ignored; else ack, data, owed ack even for old data, fill |
| Arq.Endpoint.TickAt | src/shell_bucket/backhaul.py:208-214 | on expiry doubles the timeout up to 8 s and resends; then fills and pays an owed ack |
| Arq.Endpoint.Take | src/shell_bucket/backhaul.py:136-139 | hands over the delivered bytes and empties the inbox |
| Arq.Endpoint.Poll | src/shell_bucket/backhaul.py:216-218 | hands over the queued datagrams and empties the queue |
| Arq.Endpoint.TimeoutAt | src/shell_bucket/backhaul.py:220-223 | time left until the oldest segment expires, or 1000 ms |
| ArqNetwork.StepInv | src/shell_bucket/backhaul.py:114-214 | every event at either side keeps the two-way invariant: segments tile the stream, acks and the receive position are segment boundaries, every datagram ever sent is genuine |
| ArqNetwork.RunInv | native/sb/src/main.v:2925-3105 | the invariant holds after every run from the start |
| ArqSafety.AppIsSubmitted | src/shell_bucket/backhaul.py:132-134 | the recorded stream is what the application's sends submitted, in order |
| ArqSafety.ReliableInOrder | src/shell_bucket/backhaul.py:170-206 | for every run, what each side took plus its inbox is the prefix, of the received length, of what the other submitted |
| ArqSafety.WindowAgreement | src/shell_bucket/backhaul.py:124-177 | in flight never exceeds the window plus one segment less a byte, and no datagram ever sent fails the receiver's window test however late it arrives |
| ArqSafety.Alignment | src/shell_bucket/backhaul.py:114-193 | unacknowledged segments are the last tiles of the stream with pending following; `snd_una` is the last ack; the receive position is a boundary; buffered pieces are distinct whole segments beyond it |
| ArqSafety.FillIsGreedy | src/shell_bucket/backhaul.py:124-130 | filling stops only with nothing pending or a full window |
| ArqSafety.SegmentsFull | src/shell_bucket/backhaul.py:124-130 | of the segments one filling cuts only the last of what was pending may be shorter than the largest size |
| ArqSafety.NothingHeldBack | src/shell_bucket/backhaul.py:124-206 | in every run bytes wait only behind a full window, so an ack that makes room is used at once |
| ArqArrivals.FarAsArrived | src/shell_bucket/backhaul.py:170-193 | for every run, side and n, the stream has got to n if and only if the segments that arrived, in any order and however often, cover the first n bytes: none that came early is lost |
| ArqArrivals.BufferBounded | src/shell_bucket/backhaul.py:173-176 | whatever a peer sends, even one with no window of its own, nothing is buffered that begins more than a window ahead, and nothing twice |
| ArqNonces.NoncesFresh | src/shell_bucket/backhaul.py:100-103 | for every run, two data or ack datagrams one endpoint sealed under the same nonce are the same datagram |
| ArqProgress.RoundProgress | src/shell_bucket/backhaul.py:150-168 | a timer tick, delivery of the first datagram it sends, the peer's tick and delivery of its ack strictly decrease unsent plus unacknowledged bytes |
| ArqProgress.EverythingArrives | src/shell_bucket/backhaul.py:195-214 | from any reachable state, as many such rounds as there are unfinished bytes deliver and acknowledge everything submitted |
| ArqIdle.IdleSilent | src/shell_bucket/backhaul.py:195-214 | an end with nothing to send, nothing unacknowledged and no ack owed seals nothing through any events that bring it no segment |
| ArqIdle.TickPaysOnce | src/shell_bucket/backhaul.py:208-214 | with nothing to send, a tick pays the ack owed, if one is, and says nothing else; then the end is idle |
| ArqIdle.OnlySegmentsOwe | src/shell_bucket/backhaul.py:195-206 | no datagram but a segment makes an ack owed, so acks are not acknowledged |
| ArqTimers.RunTimely | src/shell_bucket/backhaul.py:141-168 | in every run the timeout stays in [100, 8000] and no segment is stamped in the future |
| ArqTimers.TickThenWait | src/shell_bucket/backhaul.py:208-223 | right after a tick the next timeout is positive |
| ArqTimers.DueExactly | src/shell_bucket/backhaul.py:208-223 | with data outstanding, the oldest segment is due at and after the moment the poll loop is told to wait for, and not before |
| ArqTimers.TimeoutDoubles | src/shell_bucket/backhaul.py:208-211 | unacknowledged, the oldest segment is sent again each time it is due, n times after n waits, and the timeout is doubled each time up to 8 s |
| ArqTimers.EighthOfTheWay | src/shell_bucket/backhaul.py:141-148 | one sample moves the smoothed value an eighth of the way to it and the variation a quarter of the way to the error, rounded down |
| ArqTimers.TimeoutCovers | src/shell_bucket/backhaul.py:148 | after a sample the timeout is no more than 3 ms shorter than it, but for the 8 s limit |
| ArqTimers.SettlesOnSteady | src/shell_bucket/backhaul.py:141-148 | a steady round trip, long enough, brings the smoothed value within 7 ms of it and the timeout within 28 ms, whatever was measured before |
| ArqTimers.DropTimesOnce | src/shell_bucket/backhaul.py:158-162 | an ack drops exactly the covered segments and samples exactly those of them sent once |
| ArqTimers.EstimateWithinSamples | src/shell_bucket/backhaul.py:141-148 | after any samples the smoothed value lies within the clamped samples and is not the 0 sentinel |
| ArqKarn.TimedSegmentsSentOnce | src/shell_bucket/backhaul.py:161-162 | in every run a segment that would be sampled has one datagram on record on the whole network |
| ArqKarn.FiresIffResends | src/shell_bucket/backhaul.py:163-168 | an ack sends something exactly when it is the third duplicate with data outstanding, and then the oldest segment alone |
| ArqKarn.ThirdRepeatResends | src/shell_bucket/backhaul.py:163-168 | after every new ack that leaves data outstanding, the third repeat of it re-sends the oldest segment, once, and no other repeat sends anything |
| ArqKarn.OneFastRetransmitPerAck | src/shell_bucket/backhaul.py:163-168 | in every run each ack value triggers at most one fast retransmit |
| ArqKarn.TimerIsEstimate | src/shell_bucket/backhaul.py:141-162 | in every run the timer's estimate is that of the history of measured round trips |
| ArqKarn.SmoothedWithinMeasured | src/shell_bucket/backhaul.py:141-148 | in every run the smoothed round trip lies within the measured ones, and is 0 only before the first |
| Wire.BigEndianRoundTrip | src/shell_bucket/backhaul.py:118-120 | an n-byte big-endian field reads back as the value modulo 256 to the n |
| Wire.MostSignificantFirst | src/shell_bucket/backhaul.py:118-120 | byte i of a field is its digit n-1-i in base 256 |
| Wire.PositionWraps | src/shell_bucket/backhaul.py:118-120 | an acknowledgement of position 2^64 is read back as position 0 |
| Wire.BodyLayout | src/shell_bucket/backhaul.py:117-121 | byte by byte: the flag, the acknowledged position, then for data its own position and the bytes |
| Wire.BodyRoundTrip | src/shell_bucket/backhaul.py:117-121 | a payload's byte layout decodes to it if and only if its positions fit 64 bits; a control payload is dropped |
| Wire.DecodedIsSpelled | src/shell_bucket/backhaul.py:195-205 | conversely any opened payload is dropped exactly if short or of a control kind, and otherwise what is read from it, written again, is the payload but for its flag byte and what follows a bare ack |
| Frames.FrameStream.Feed | src/shell_bucket/backhaul.py:237-246 | the loop emits exactly the whole frames of buffer plus data and keeps the rest |
| Frames.WrapLayout | src/shell_bucket/backhaul.py:233-235 | four bytes of the frame's own length, most significant first, then the frame |
| Frames.ParseInParts | src/shell_bucket/backhaul.py:237-246 | parsing two parts in turn is parsing them joined |
| Frames.FeedAllIsParse | native/sb/src/main.v:3654-3670 | any chunking of a stream gives the same frames and the same kept bytes |
| Frames.ParseOfPrefix | src/shell_bucket/backhaul.py:226-246 | after any prefix of a wrapped list of frames, exactly the frames wholly inside it are out and exactly the remainder is kept |
| Backhaul.UdpBackhaul.constructor | src/shell_bucket/backhaul.py:443-446 | a backhaul whose path has just come up: the pair nominated, both clocks set, nothing sent or received yet |
| Backhaul.UdpBackhaul.FlushOut | src/shell_bucket/backhaul.py:399-402 | everything the `Arq` queued is written to the socket, in order |
| Backhaul.UdpBackhaul.PruneSent | src/shell_bucket/backhaul.py:415-421 | drops the leading frames whose compressed end is acknowledged, counting each |
| Backhaul.UdpBackhaul.DeliverUp | src/shell_bucket/backhaul.py:408-413 | inflates what arrived in order, counts and dispatches the frames it completes |
| Backhaul.UdpBackhaul.Readable | src/shell_bucket/backhaul.py:428-435 | while up: any packet proves life, then receive, flush, prune, deliver; else nothing |
| Backhaul.UdpBackhaul.SendHeartbeat | src/shell_bucket/backhaul.py:464-467 | a due heartbeat goes out under the control counter and the next is scheduled |
| Backhaul.UdpBackhaul.TickAt | src/shell_bucket/backhaul.py:460-471 | while up: a silent path starts the revert; else heartbeat, `Arq` tick, flush, prune, deliver |
| Backhaul.UdpBackhaul.Pass | src/shell_bucket/backhaul.py:478-483 | while up: compress after all earlier frames, remember with the end offset, send, flush |
| Backhaul.UdpBackhaul.Submit | src/shell_bucket/backhaul.py:477-487 | up: compress, remember with its end offset, send; reverting: hold at the current offset; failed: nothing |
| Backhaul.UdpBackhaul.StartRevert | src/shell_bucket/backhaul.py:490-498 | once only: prune, then announce in-band how many frames were consumed |
| Backhaul.UdpBackhaul.ResendTail | src/shell_bucket/backhaul.py:508-509 | writes in-band the remembered frames from the peer's count on, clipped at the queue's base |
| Backhaul.UdpBackhaul.HandlePeerRevert | src/shell_bucket/backhaul.py:500-513 | mirrors the revert if still up, re-sends the tail exactly once, then fails |
| Backhaul.UdpBackhaul.RouteDown | src/shell_bucket/wrapper.py:654-660 | while up or draining the backhaul owns a frame, else it goes in-band |
| Backhaul.UdpBackhaul.ArriveInband | src/shell_bucket/wrapper.py:732-735 | a revert notice drives the handoff, any other frame is dispatched |
| RevertNetwork.UpRxRoundTrip | src/shell_bucket/backhaul.py:497 | the count in a revert notice reads back |
| RevertNetwork.ParsedFrames | native/sb/src/main.v:3642-3670 | from any prefix of the compressed stream the receiver has exactly a prefix of the frames, and all those whose chunk is wholly inside |
| RevertNetwork.StepJoint | src/shell_bucket/backhaul.py:408-513 | every submit, datagram, timer and death at either side keeps the two-party invariant |
| RevertNetwork.ArriveJoint | src/shell_bucket/backhaul.py:500-513 | so does the next in-band frame, arriving whole: first the notice, which hands over the tail, then the tail and what follows |
| BackhaulProgress.PruneSweeps | src/shell_bucket/backhaul.py:415-421 | pruning drops the longest beginning of the queue that is acknowledged, and counts what it drops |
| BackhaulProgress.RevertSweeps | src/shell_bucket/backhaul.py:490-497 | a revert begins with all in the queue that is not acknowledged and nothing at its head that is, and puts the notice in-band |
| BackhaulRounds.StayUp | src/shell_bucket/backhaul.py:460-471 | ends that have heard each other's last heartbeat stay up, and put nothing in-band, through any number of rounds at most 15 s apart whose datagrams get through |
| BackhaulProgress.RoundAdvances | src/shell_bucket/backhaul.py:428-471 | such a round keeps what links the two ends, and if the leading end has bytes unfinished and its oldest segment is due, more of its stream is acknowledged than before |
| BackhaulRuns.SilenceReverts | src/shell_bucket/backhaul.py:460-463 | in every run a timer gives the path up if and only if no datagram has come for more than 20 s, and then puts the notice in-band |
| BackhaulRuns.AllWritten | src/shell_bucket/backhaul.py:395-402 | in every run all that an end has sealed is on its socket: data and acks under the nonces from 0 up to the counter, in order, each once, heartbeats under theirs |
| BackhaulRuns.FramesGetThrough | src/shell_bucket/backhaul.py:408-483 | from every reachable moment with both ends up and their paths alive, as many rounds as there are bytes unfinished hand each end exactly what the other submitted and forget it as acknowledged, both still up and nothing in-band |
| BackhaulRuns.OrdinaryHandedOn | src/shell_bucket/wrapper.py:732-735 | of what is read in-band exactly the frames that are no revert notice are handed on, in order |
| BackhaulRuns.NoCountIgnored | src/shell_bucket/wrapper.py:733-734 | a notice whose count is not a number changes nothing |
| ApcFrames.EnvelopeHeard | src/shell_bucket/apc_filter.py:73-117 | an envelope that comes while no sequence of ours is open is heard as its frame alone if and only if the scanner is between sequences and the frame is safe; otherwise less is heard, never the frame, and of a frame without ESC and BEL nothing |
| ApcFrames.EscapeLoses | src/shell_bucket/apc_filter.py:80-95 | after a typed ESC nothing is heard of any frame without ESC and BEL |
| ApcFrames.KeysLandInside | native/sb/src/main.v:5758-5788 | keys written between two parts of one envelope are heard inside the frame |
| ApcFrames.CarryFrames | src/shell_bucket/wrapper.py:595 | frames put on a line shared with keystrokes are all heard, in order, or those up to the first not put in the clear, and then less than was put |
| ApcFrames.HeardExactly | src/shell_bucket/wrapper.py:705 | whatever is typed between them, as long as it spells and opens no frame, the frames of a line are heard as they were put if and only if each was put in the clear |
| ApcFrames.FramesCross | src/shell_bucket/apc_filter.py:30-43 | frames sent back to back in envelopes are heard as they were sent if and only if all are safe |
| ApcFrames.BelGarbled | src/shell_bucket/apc_filter.py:96-99 | the frame of a single BEL is heard empty and its terminator comes out as terminal bytes |
| RevertWire.StepInv | native/sb/src/main.v:3704-3729 | every move at either side, with any keystrokes that spell and open no frame and the in-band bytes read in chunks of any size, keeps the state that of the frame-level protocol but for what is handed over after a frame not put in the clear, or leaves both ends in-band with something lost for good |
| RevertWire.RunInv | src/shell_bucket/wrapper.py:591-597 | so after every run from the moment both paths came up |
| Revert.ExactlyOnceInOrder | src/shell_bucket/backhaul.py:408-413 | at every moment of every run each side has been handed a prefix of the peer's submitted frames, in order, each once, if the peer has put its frames in-band in the clear so far, and this side its notice |
| Revert.LosslessRevert | src/shell_bucket/backhaul.py:477-513 | once either side has begun to revert and both streams are read to their ends: both are back in-band, and each has been handed exactly the frames the other submitted before, during and after the drain, if and only if every frame put in-band was put in the clear; and if both notices were, both are back in-band and each direction is exact if and only if its own frames were |
| Revert.StrippedClear | native/sb/src/main.v:5089-5103 | a side that writes only terminal bytes ending between sequences, as a mux does, puts its frames in the clear if and only if they are safe |
| Revert.LoneEscape | src/shell_bucket/wrapper.py:698-707 | a run in which an ESC is typed before the notice: with both streams read to their ends one side waits in its revert and the other is still up |
| Revert.PruneSound | native/sb/src/main.v:3693-3730 | in every reachable state the queue's base is at most the peer's count, the queue is every submitted frame from the base on, and the announced count is still the count, so the resend start is never clipped |
| Revert.PruneWouldLoseHeld | src/shell_bucket/backhaul.py:484-487 | with all transmitted data acknowledged, pruning while frames are held would drop every held frame, and none would be re-sent |
| Revert.StoredCodecStreams | src/shell_bucket/backhaul.py:404-406 | the two codec laws assumed of a sync-flushed stream can be met |
| Apc.Filter.FinishSeq | src/shell_bucket/apc_filter.py:119-135 | a finished sequence of ours becomes an event, any other is forwarded whole |
| Apc.Filter.StepByte | src/shell_bucket/apc_filter.py:73-117 | one byte in each of the four states, including ESC after ESC and BEL after ESC |
| Apc.Filter.FeedChunk | src/shell_bucket/apc_filter.py:66-71 | the byte loop adds up to feeding the chunk |
| Apc.FeedInParts | src/shell_bucket/apc_filter.py:66-71 | feeding a stream split anywhere is feeding it whole |
| ApcLaws.ChunkingIrrelevant | native/sb/src/main.v:407-463 | any list of chunks gives the same state, output and events as their concatenation |
| ApcLaws.Conservation | src/shell_bucket/apc_filter.py:73-135 | the input is, in order, forwarded tokens, removed frames of ours and the buffered tail; nothing is lost, altered or moved |
| ApcLaws.ForwardedIsComplete | src/shell_bucket/apc_filter.py:73-135 | what is forwarded from any reachable state ends at a token boundary |
| ApcLaws.StripIdempotent | native/sb/src/main.v:388-451 | filtering the forwarded bytes again changes nothing and finds no frame |
| ApcLaws.EnvelopeRoundTrip | src/shell_bucket/apc_filter.py:30-43 | the envelope gives back exactly its payload, once and with nothing forwarded, if and only if the payload is safe |
| MuxStream.Upward.ChildReadable | native/sb/src/main.v:5089-5103 | the child's chunk is scanned, its terminal bytes written upward, its frames dropped |
| MuxStream.Upward.SendUp | native/sb/src/main.v:4479-4483 | a frame is written upward in an envelope; an empty one is not |
| MuxStream.Transparent | native/sb/src/main.v:5089-5103 | for any child output, safe frames sent at any moments and any chunking, the scanner above recovers exactly those frames and exactly the child's stripped bytes, in order |
| MuxStream.OneHopStripsAll | native/sb/src/main.v:4940-4948 | one mux strips as much as any number of them |
| Marker.FindSubseq | native/sb/src/main.v:5490-5507 | the index of the first occurrence, or -1 exactly if there is none or the needle is empty |
| Marker.ReadChunk | src/shell_bucket/wrapper.py:842-851 | one turn on a trimmed buffer finds the first occurrence in the whole stream if the chunk completes it, and otherwise keeps enough |
| Marker.ScanFor | native/sb/src/main.v:5634-5656 | for every chunking the scan returns exactly the already read bytes after the first occurrence in the whole stream, and stops at the chunk that completes it |
| Marker.TailSuffices | src/shell_bucket/wrapper.py:850-851 | an occurrence that spans a trim starts inside the kept tail |
| Marker.SwallowUntilBegin | native/sb/src/main.v:5634-5656 | the hop discards the shell's output up to the first BEGIN marker and returns what it had read beyond it |
| Marker.EchoIsNoMarker | native/sb/src/main.v:5629-5633 | output without an ESC, such as the echo of the fed line, never holds the marker, so the first marker is the one that follows it |
| Stun.ParseResponse | src/shell_bucket/backhaul.py:299-320 | the in-bounds walk, as a loop, equals the recursive walk |
| Stun.XorBitwise | src/shell_bucket/backhaul.py:314-317 | bit by bit, unmasking gives 1 exactly where value and cookie differ |
| Stun.ParseFindsFirst | native/sb/src/main.v:2202-2239 | for any well-formed attributes and anything after the message, the first IPv4 mapped address: bytes 4 to 8 and 2 to 4 of the value as they are in the older form, xored with the cookie in the other |
| Stun.ResponseRoundTrip | native/sb/src/main.v:2182-2239 | encoding an address and parsing the response gives it back |
| Stun.LegacyRoundTrip | src/shell_bucket/backhaul.py:313-317 | so does an address in the older, unmasked form |
| Stun.ParseSound | src/shell_bucket/backhaul.py:299-320 | whatever bytes come, an address is found only in an answer to this request that carries it in an attribute inside it |
| FileDelivery.RoundTrip64 | src/shell_bucket/file_delivery.py:154 | base64 decoding undoes encoding, for all byte strings |
| FileDelivery.LinesCover | src/shell_bucket/file_delivery.py:155-156 | the lines join to the whole, none is empty or over 76 columns, all but the last are full, each a multiple of four |
| FileDelivery.GroupingIrrelevant | native/sb/src/main.v:617-621 | decoding line by line, or in any groups of whole lines, gives back the data |
| FileDelivery.Source.ReadLine | native/sb/src/main.v:554-572 | one line and not a byte more; a last unterminated line counts if it is not empty |
| FileDelivery.ParseFlags | native/sb/src/main.v:636-642 | the trimmed, split flags, later ones winning |
| FileDelivery.ReadFileResp | native/sb/src/main.v:622-665 | the reader loop: status, flags, bytes written and bytes left unread are those of the line-by-line specification, which `FileDelivery.ReadVerdict` describes |
| FileDelivery.ReadVerdict | native/sb/src/main.v:622-665 | on any stream the lines of base64 before the first other line are written, that line decides, and nothing after it is read; a stream without one is neither a success nor unchanged |
| FileDelivery.CutShort | native/sb/src/main.v:623-629 | of a response cut anywhere, what is written is a prefix of the data, and the read succeeds if and only if the whole `~EOF` came |
| FileDelivery.LastFlagCounts | native/sb/src/main.v:636-642 | the last flag of each kind is the one that counts, whatever else is there |
| FileDelivery.BodyLineRead | src/shell_bucket/file_delivery.py:30 | a body line is never taken for a token line and is always accepted |
| FileDelivery.DeliveryRoundTrip | src/shell_bucket/file_delivery.py:150-157 | for all data and flags the reader gets both back and leaves exactly what follows the response |
| FileDelivery.ServedFile | src/shell_bucket/file_delivery.py:208-211 | a served file is fetched with its data, its mtime and `+x` exactly if it is executable |
| FileDelivery.ErrorRead | native/sb/src/main.v:645-650 | an error writes nothing and ends the read; a code beginning `NOT_CHANGED` is told apart from every other |
| FileDelivery.ResponseSafe | src/shell_bucket/file_delivery.py:138-157 | whatever the data, a response crosses the terminal stream intact |
| Routing.RouteRoundTrip | src/shell_bucket/mux_frame.py:32-46 | parsing a built `R<id>:<inner>` frame gives back the id and the inner bytes, whatever they are |
| Routing.ParseRouteBytes | native/sb/src/main.v:341-354 | the mux's digit loop agrees with the wrapper's split on every input |
| Routing.Mux.Line | native/sb/src/main.v:5377-5436 | a request line: opens a tunnel, relays under the tunnel's id, reuses a deep tunnel's route or mints one; the frame sent up and the whole new table |
| Routing.Mux.FindRoute | native/sb/src/main.v:5402-5408 | the first tunnel route for this conduit and inner id |
| Routing.Mux.Reply | native/sb/src/main.v:4532-4583 | a reply goes raw or re-framed under the inner id to the route's connection; a one-shot route is deleted |
| Routing.Mux.Gone | native/sb/src/main.v:5121-5141 | a lost connection: exactly the persistent routes to it, the client's own tunnel and those carried over the conduit, are closed upstream, each once, and removed; every other route stays as it was |
| RoutingGone.LostIsClosed | native/sb/src/main.v:5130-5139 | in every run of every tree, once a connection is gone no persistent route leads to it and every tunnel that went through it has been closed upstream |
| RoutingGone.OpenUntilClosed | native/sb/src/main.v:5402-5421 | in every run a tunnel's route is there, as it was made, until a close has gone up for it, and a route of a tunnel carried over a conduit is gone from then on |
| RoutingTree.RunInv | native/sb/src/main.v:4532-4583 | after every run over every tree, each route leads back along the path its request came by, each reply in transit bears the id of its request, and tunnel routes are unique |
| RoutingLaws.RightClient | native/sb/src/main.v:4560-4577 | a reply handed to a client answers a request the wrapper heard, of that very client, under the id that client's request was given; what it says and that it comes are the rows of `ReplyLaws` and `TalkLaws` |
| RoutingTree.FramedRight | native/sb/src/main.v:4569-4576 | a reply re-framed for a conduit bears the id under which the deeper mux sent the same request |
| RoutingLaws.OneShotOnce | native/sb/src/main.v:4580-4582 | two replies under one request of a client: only if the request opened a tunnel |
| RoutingTree.ClosersSent | native/sb/src/main.v:5136-5139 | the closes recorded for a lost connection are the frames the mux sends |
| RoutingLaws.HeardInOrder | native/sb/src/main.v:5368-5436 | what the wrapper has heard of a client's talk, and what any mux on the way has sent of it, is a prefix of what its own mux sent, in order, and all of it once all that was sent on the way has been taken |
| RoutingLaws.SentIsSaid | native/sb/src/main.v:5377-5393 | what a mux has sent up for a client is what the client said to it, line for line |
| RoutingLaws.OneShotHeardOnce | native/sb/src/main.v:5423-5436 | a one-shot request reaches the wrapper at most once |
| RoutingLaws.TunnelKeepsItsId | native/sb/src/main.v:5394-5421 | at every mux, all frames of a tunnel up to and including its first close bear one id |
| RoutingLaws.OpensAnew | native/sb/src/main.v:5377-5421 | in every run a frame that opens a tunnel goes up under an id no earlier frame of that mux bore |
| RoutingLaws.OneIdExactly | native/sb/src/main.v:5402-5421 | all frames of a tunnel bear one id at its own mux always, and above it if and only if none follows its closing frame |
| RoutingLaws.TunnelSplits | native/sb/src/main.v:5419-5421 | a run in which a tunnel's second close goes up under a new id |
| RoutingCloses.RunFollows | native/sb/src/main.v:5121-5141 | in every run what a mux has sent for a talk from below is what it took from the conduit, and one close more only if that conduit is gone and the tunnel was open |
| RoutingCloses.CloseLastKeepsId | native/sb/src/main.v:5402-5421 | if nothing follows the close at the tunnel's own mux, every mux on the way keeps one id for it |
| RoutingReplies.RunReplies | native/sb/src/main.v:4532-4583 | in every run, at every mux and for every request, what has gone on is all that was read, in order, or the beginning of it and then the route or the connection is gone; a one-shot's first reply alone; and no reply is anywhere its request did not pass |
| ReplyLaws.RepliesInOrder | native/sb/src/main.v:4560-4583 | for every run and every id at the wrapper: what a client is handed is the beginning of what was answered under it, in order, empty answers left out; of the first answer alone if it opened no tunnel |
| ReplyLaws.RepliesArrive | native/sb/src/main.v:4560-4583 | and all of it, once every mux on the way has read what came down, with no connection gone and tunnels' routes in place, on conduits that carry every frame whole |
| TalkLaws.TalkInOrder | native/sb/src/main.v:4560-4583 | the client of a talk with one id at the top is handed the beginning of what was answered to it, in order |
| TalkLaws.TunnelComplete | native/sb/src/main.v:4578-4582 | the client of an open tunnel has been handed every non-empty answer to it, in order, each once, when the muxes on the way have read what came down, no connection is gone, and the conduits carry every frame whole |
| TalkLaws.OneShotReply | native/sb/src/main.v:4580-4582 | the client of a one-shot request is handed at most one reply, the first answer, and that one, unless empty, when the muxes on the way have read, no connection is gone, and the conduits carry every frame whole |
| RoutingCloses.TunnelInOrder | native/sb/src/main.v:4560-4583 | the client of a tunnel with nothing after its close is handed the beginning of what was answered to it, in order |
| TalkBreaks.OrderBreaks | native/sb/src/main.v:5402-5421 | conversely, from every run in which a talk has a second id at the top, with no connection on its way gone, tunnels' routes in place and that id unanswered if it is a one-shot's, some continuation hands its client a later answer and not an earlier one |
| LateReply.LaterOnly | native/sb/src/main.v:5417-5421 | a run in which a tunnel closed twice by its client is handed a later answer but not an earlier one |
| TalkLaws.ConduitsCarry | native/sb/src/main.v:5758-5788 | in every run all a mux sent up, among its child's stripped output, is heard above as exactly those frames, one line a frame; and all it was sent down, between keystrokes that spell and open no frame, is heard as exactly those frames if and only if each was put on the line while the scanner was between sequences |
| TalkLaws.ReplyHeard | native/sb/src/main.v:4569-4578 | of what a mux writes for a reply, a client reads the text as it is, and the deeper mux hears one frame, the reply under that mux's own id, if and only if the text is safe |
| Survey.PathRoundTrip | src/shell_bucket/topology.py:39-44 | a route's text reads back as the route |
| Survey.PrependPath | native/sb/src/main.v:5210-5217 | relaying a survey reply puts the conduit's id before its route and changes nothing else |
| Survey.ReplyRead | src/shell_bucket/mux_frame.py:59-70 | the wrapper reads back a reply's path and its identity, colons included |
| Survey.PushStep | native/sb/src/main.v:4509-4530 | a push with an empty route is acted on; any other goes to the head's conduit with the rest of the route |
| Survey.PushReplyRead | src/shell_bucket/mux_frame.py:86-93 | the wrapper reads back which push was answered and the answer whole, colons included |
| Survey.SurveyReports | native/sb/src/main.v:4495-4504 | a survey let into any tree of muxes, each handling what comes down and up as `Survey.Hub` does, brings up the tree's muxes, each with its own path, and runs no command |
| Survey.NodesDistinct | native/sb/src/main.v:5201-5204 | with conduit ids unique per mux, no two paths are equal |
| Survey.PushActs | native/sb/src/main.v:4509-4530 | a push along a path let into such a tree is carried out once, at that path, and its host's answer comes up unchanged, if a mux is there; otherwise nothing happens |
| Survey.PushFindsReporter | src/shell_bucket/mux_frame.py:75-84 | replies are read as distinct paths, and a push along the path of any reply is carried out once, by the mux that sent that reply, and answered by that host |
| Survey.Topology.Record | src/shell_bucket/topology.py:63-68 | the book at the line's path becomes the line's identity, and every other path stays as it was |
| Survey.LatestReport | src/shell_bucket/topology.py:63-68 | a path's entry is what the last line that reported the path said |
| Survey.AddressBook | src/shell_bucket/topology.py:58-68 | in whatever order and however often a survey's replies arrive, the book's paths are exactly the tree's, each with its identity |
| Survey.Hub.Declare | native/sb/src/main.v:5201-5207 | a conduit gets an id no conduit of this mux ever had |
| Survey.Hub.Down | native/sb/src/main.v:4490-4531 | a survey is answered and written to every conduit in an envelope; a push is acted on and its reply sent up, or written to at most one conduit |
| Survey.Hub.Up | native/sb/src/main.v:5210-5223 | a line from any client: a survey reply goes up with the client's id before its route (0 if it is no conduit), a push reply as it is |
| Survey.ReplyPasses | native/sb/src/main.v:5210-5218 | a survey reply from any client, one that is no conduit included, goes up with the client's id before its route |
| Survey.OnlyRepliesPass | native/sb/src/main.v:5210-5223 | nothing but replies passes up this way, a push reply unchanged and a survey reply as a survey reply |
| Survey.FanOne | native/sb/src/main.v:4524-4528 | a wanted conduit id reaches the one conduit that has it, and nothing if none has |
| Survey.FanReaches | native/sb/src/main.v:4495-4528 | a survey goes to every conduit, a push to those with the wanted id, once each, and to no other connection |
| Survey.SealedHeard | native/sb/src/main.v:4495-4528 | what is written to each conduit is heard there as that frame alone, if and only if the frame is safe |

## Left out

- AES-GCM, zlib, BearSSL: foreign code. A datagram opens only under the salt it was sealed with, and only if sealed; a codec meets two laws, a prefix in gives a prefix out and a flushed chunk is all out.
- Sockets, poll loops, PTYs, signals, clocks: the events they inject are parameters of the model; a failed socket write is a lost datagram.
- Hole punching, candidate gathering, renegotiation and a second backhaul epoch: the model starts with both ends `up` and covers one epoch. A peer that is still punching ignores a revert notice.
- The order of in-band frames sent before the upgrade against UDP frames sent after it: the upgrade does not order them.
- Integer widths: offsets, counters, ids and lengths are unbounded; the stream position's 64 bits are the condition of `Wire.BodyRoundTrip`. V reads a frame length as a signed 32-bit number, so its frames must be under 2^31 bytes; the model's limit is Python's 2^32.
- Two clocks: the rounds of `BackhaulRounds`, and so `BackhaulRuns.FramesGetThrough`, give both ends one time; the safety theorems give every event a time of its own.
- A frame submitted while the handler of another frame runs is modelled as submitted after it.
- Keystrokes that themselves spell or open a frame of ours, which a user would have to type or paste byte by byte: what is typed may be anything else (`RevertWire.Allowed`, `ApcFrames.Typing`).
- What a conduit makes of a frame with keys written inside it, beyond the general input `ApcFrames.KeysLandInside`: `RoutingTree` moves frames, not bytes, so `ReplyLaws.RepliesArrive`, `TalkLaws.TunnelComplete` and `TalkLaws.OneShotReply` speak of conduits that carry every frame whole, and `TalkLaws.ConduitsCarry` says which do.
- Lines and answers in the routing tree that are not safe inside an envelope: the model's clients and wrapper say none (`RoutingTree.CanSay`, `RoutingTree.CanAnswer`), so that of them nothing but the moment they are put on a conduit decides whether they are heard (`TalkLaws.ConduitsCarry`).
- Frames that begin `UP:RX:` or are empty: the revert theorems assume the router submits none of the former; V drops the latter before they reach the backhaul.
- Python's `int()` also accepts signs, blanks and underscores in a route; V's `int()` accepts leading digits. The model accepts digits only, and what the two ends write is digits.
- Authentication of clients, and what the mux's own verbs (`STATUS`, `COMPS`, `KILL`, `BH`, `TOKEN`) report.
- Reuse of a connection handle: a one-shot route outlives its connection, so handles are assumed fresh; a write to a connection that is gone is lost.
- Local clients that send lines of the form `R<n>:` outside a tunnel, and the unframed requests of a deeper host before its mux runs.
- Tunnels' socket objects at the wrapper, and the answers it computes: a reply may be any bytes, to anything heard.
- Overlapping surveys: the wrapper records replies of any survey; the address book theorem is about one survey of an unchanging tree.
- The terminal inside the child.
- Bucket walking, manifests, configuration, the command line, clipboard tools, bootstrap text.
- Routing.Mux.FindRoute: searches ids in ascending order where the source iterates its map; the two agree because tunnel routes are unique (`RoutingTree.RunInv`).
- ArqNonces.NoncesFresh: speaks of one `Arq` counter only, because the control counter is separate and also starts at 0.
- Backhaul.UdpBackhaul.ArriveInband: takes a count of digits only, where Python's `int()` also takes signs, blanks and underscores; both ends write digits.
- MuxStream.Upward.SendUp: is the in-band branch; the branches that hand the frame to the backhaul are `Backhaul.UdpBackhaul.Submit`.
- Revert.StoredCodecStreams: shows that the two codec laws can be met, by storing; that sync-flushed DEFLATE meets them is assumed.
- FileDelivery.ParseFlags: takes the leading digits of `mtime=`, where V's integer parser also reads signs and prefixes.
- FileDelivery.CutShort: a response cut inside its flags counts as complete, with fewer flags, as in the source.
- FileDelivery.ReadFileResp: leaves out a failing file write and what V's base64 decoder makes of letters of the alphabet in malformed groups.
- Routing.Mux.Line: relays every line; the mux's own verbs and the survey and push replies (`Survey.Hub.Up`) are recognised before it, and `CLIP` requests are left out.
- RoutingLaws.SentIsSaid: counts a line that is one of the mux's own verbs as sent up, as `Routing.Mux.Line` does; the source answers it itself.
- Routing.Mux.Reply: leaves out `CLIP` routes, which are one-shot and re-encode the reply for the client.
- Survey.Topology.Record: keeps a node's identity as the text it sent, where the source splits it into fields.
- TalkLaws.TalkInOrder: at one moment one way only, because after a split the answers may happen to come in order, as the wrapper is free in what it answers; `TalkBreaks.OrderBreaks` is the converse over what may follow.
