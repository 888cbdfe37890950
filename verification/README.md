# Verified model of the multiplexed SIP003 tunnel

The plugin carries any number of TCP connections over one encrypted, TLS-dressed connection. Each side runs a
writer, a reader, a keepalive loop and one pump per stream; they share a frame queue, a demux registry, a death
flag and a cause slot. This project models that tunnel and proves what it promises: about every interleaving of
both ends, about the bytes on the wire, about time, about redialing, about the handshake in front of it, and about
the option string that configures it.

Run `dafny verify dfyconfig.toml` to check the whole project.

## How the model is built

| layer | files | what it is |
|---|---|---|
| stream protocol | `Endpoint`, `Tunnel`, `History` | one end as a state machine in which every await is a step boundary ("set cause", "set flag" and "clear registry" are three steps; "register", "OPEN", "check the flag" and "spawn the pump" are four); two ends joined by a wire that delivers or loses whole records in order |
| its invariants | `Bookkeeping`, `Integrity`, `Closing`, `Death` | what every step keeps |
| its theorems | `Guarantees`, `Quiescence`, `Finishing`, `Replies`, `Limits`, `Futures`, `Uplinks`, `Settling`, `Happens` | what holds after every run, what some continuation of a run brings about, and a run for everything that can go wrong |
| the carrier as objects | `Carrier` | the registry, the counters and the death slot as mutable classes whose methods, run without interruption, are the machine's steps |
| bytes | `Bytes`, `Mux`, `Records`, `ReaderLoop`, `Wire`, `Lossy` | frame layout, record framing with the cursor buffer, the reader with its streak counter, the pipeline from `send` to dispatch, and the wire that loses, mangles and replays records |
| time and redialing | `Keepalive`, `FirstPing`, `Manager` | the keepalive loop in milliseconds, and over a run of the tunnel under a clock; the tunnel manager with its mutex and retrying connection tasks |
| before the tunnel | `Handshake`, `Options` | the handshake as a two-party run over symbolic cryptography; the option splitter and the printer it inverts |

A channel is recorded as a history and a cursor: `enq` holds every frame the frame channel ever accepted, `taken`
and `sent` say how far the writer is, `seen` holds every frame the reader has decoded. A socket is the bytes read
from it (`read`) and written to it (`written`). A timeout is a step that may happen whenever its condition holds.
A dial, a kill, a stall or a local write error may happen at any moment the source allows it to.

The AEAD codec is a parameter with a contract: `Wire.InverseCodecs` for a codec in step, `Lossy.AcceptsAtMostOnce` for
one that accepts each genuine record at most once and may refuse any record at any time, and on top of it
`Lossy.Windowed` for one that refuses a genuine record only behind that record or a later one. Each is shown to be
satisfiable, the last one by sliding windows of every width.

## Where the code and its documentation disagree

The model follows the code.

* Keepalive detection is documented as `ping + 2 s` (`README.md:161`, `src/carrier.rs:40-44`). The two-second grace
  wait happens inside the tick, so with `ping=1` ticks are two seconds apart: silence is detected within
  `max(ping, 2 s) + 2 s` less a millisecond and within nothing shorter, and the documented bound holds exactly when
  `ping >= 2` (`Keepalive.DetectionIsTight`, `Keepalive.DocumentedBoundIff`).
* The options are documented as escaping `;`, `=` and `\` inside values. The escape of `=` is resolved before the
  entry is split at its first `=`: it protects nothing in a key, and values come back the same with their equals signs
  escaped or bare (`Options.RoundTripIff`, `Options.EscapedKeyIsSplit`).
* `src/mux.rs:92-94` says a decode failure kills the tunnel. The reader tolerates up to seven bad records in a row
  (`ReaderLoop.StreakLaw`).
* `src/carrier.rs:537-540` expects the peer to stop sending when a CLOSE is echoed. A CLOSE removes the receiver's
  registry entry, which ends the downlink; the uplink never looks there. After a CLOSE was handled another DATA of that
  stream can follow exactly when the writer can still take a frame and the uplink is reading, sending or about to be
  spawned (`Uplinks.CloseDoesNotSilence`), and there is a run in which it does (`Uplinks.SendsAfterClose`).
* The client drops its handshake `RecordReader` after the OK. Bytes already read past the OK are lost with it: the
  handover is clean exactly when that buffer is empty, and the server's first keepalive PING can end up there
  (`Handshake.ClientHandover`, `Handshake.SomeRunLosesPing`). A PING lost on its way is never answered, and the
  keepalive that sent it kills the tunnel when the two seconds of its grace are over, whatever else both ends do in
  between (`FirstPing.LostPingKills`). In the other direction nothing can be lost (`Handshake.ServerHandover`).

## Model

| member | source | states |
|---|---|---|
| `Guarantees.StreamIntegrity` | src/carrier.rs:747-777 | After every run, with any stalls, failed dials, failed writes and kills in it, the bytes written to a stream's far socket are a prefix of the bytes read from its own near socket, in each direction whose wire lost nothing: no gap, no reordering, no byte of another stream. |
| `Guarantees.LossyOrder` | src/carrier.rs:492-545 | When the wire loses records, the chunks a stream's channel accepts are a subsequence of the chunks sent on that stream, what is written is a prefix of those, and what is sent is a prefix of what was read. |
| `Guarantees.ExactHalfClose` | src/carrier.rs:759-776 | Per stream, whatever happens to all the others: in every run without loss or kill in which this stream neither stalls nor has its dial or a local write fail, a FIN at one end means the other end's socket ended and every byte read from it was written; every DATA of it finds it registered; no CLOSE of it is echoed; nothing follows its CLOSE. |
| `Guarantees.HalfCloseDelivers` | src/carrier.rs:759-776 | From every such run in which the stream's uplink has finished, wherever its frames, its OPEN or the dial are and whatever other streams are stuck in, there is a continuation that hurts no clean stream and after which the far socket has been FINed behind every byte the near socket gave. |
| `Guarantees.SessionHappens` | src/carrier.rs:734-777 | For any bytes one socket read can return there is a run in which nothing bad happens and a stream carries them to the server and is FINed there. |
| `Guarantees.NoStreamLeak` | src/carrier.rs:541-548 | With both ends alive, nothing lost, nothing in flight and every stream task finished, both registries are empty, even after stalls, failed dials and failed writes. |
| `Guarantees.RegisterNeverDisplaces` | src/carrier.rs:84-90 | No registration ever finds an entry under its id: not on the client for the first 2^32 allocations, not on the server under any losses; and the client never sees an OPEN. |
| `Guarantees.RefusedIsUnregistered` | src/server.rs:103-110 | After every run: a dial that failed has no registry entry any more from the moment its CLOSE may go out. |
| `Guarantees.DeathReachesEveryPump` | src/carrier.rs:274-283 | Once an end is dead and its reader and every killer have returned, no sender of any pump's channel is left, in every interleaving with registrations, liveness checks and spawns. |
| `Settling.DeadEndSettles` | src/carrier.rs:274-283 | Every run in which an end has died goes on to a point where its reader and all its killers have returned and every pump it ever spawned has no sender left and has FINed its local socket. |
| `Guarantees.FirstCauseWins` | src/carrier.rs:263-283 | However a run goes on, the flag is never unset, a recorded cause and its author are never overwritten, and a killer that returned stays returned. |
| `Guarantees.EveryDeathExplained` | src/carrier.rs:584-605 | After every run: dead implies a cause; the cause is the one its author came with, and one that is its to give (the reader: closed peer, read error, corruption, bad frame; the writer: write error, corruption; the keepalive: timeout; an explicit kill: killed, and nobody else that); a loop that set it had already logged its line, and an explicit kill logs none. |
| `Guarantees.LateLoopsStaySilent` | src/carrier.rs:592-597 | In every run, a loop or killer that starts after a cause was recorded never logs a line of its own. |
| `Happens.EveryCauseHappens` | src/carrier.rs:482-585 | At either end every killer can be the one that ends the tunnel, with each cause that is its to give: there is a run after which that cause stands, the flag is set, and that killer, having logged its line unless it is an explicit kill, has returned. For a closed peer this includes the peer being killed and leaving first. |
| `Guarantees.DownlinkMoves` | src/carrier.rs:764-776 | In every run, whatever went wrong in it, a running downlink whose CLOSE was handled and which has not FINed has a chunk to take, bytes to write, or the end of its channel to see. |
| `Finishing.FinIsLastOrFailed` | src/carrier.rs:762-776 | In every run, kills, stalls and losses included, a local socket is FINed in one of two ways: either every byte of every chunk the stream's channel ever accepted was written before and no sender is left, not even the clone a reader holds while it delivers; or a write failed short of them. |
| `Finishing.DownlinkUses` | src/carrier.rs:762-777 | Each step of a downlink uses up some of what it has left, down to nothing at its FIN; only a chunk delivered to its stream adds to that, by its length and two. So a downlink without deliveries FINs after boundedly many of its steps. |
| `Uplinks.CloseDoesNotSilence` | src/carrier.rs:536-548 | After every run in which an end has handled a CLOSE of a stream, some continuation enqueues another DATA of it there if and only if the writer can still take a frame (it is there, and if it is on its way out the channel has room) and the uplink is reading, sending, or will be once its pump is spawned. |
| `Uplinks.SendsAfterClose` | src/carrier.rs:537-545 | There is a run in which the client has handled a CLOSE and holds no entry for the stream, and a longer one in which it has enqueued another DATA of it. |
| `Uplinks.SilencedForGood` | src/carrier.rs:747-760 | An uplink that cannot send any more never does again, whatever follows. |
| `Futures.EverythingIsRead` | src/carrier.rs:492-582 | Between live ends the frames an end has enqueued can all be written, read and dealt with, without loss and without hurting a clean stream, while that end's own streams stay as they are. |
| `Futures.ClosedStreamFins` | src/carrier.rs:764-776 | A clean stream whose CLOSE was sent can be FINed at the far end, its dial finished and its channel drained on the way, without hurting a clean stream. |
| `Quiescence.RepliesQuiesce` | src/carrier.rs:524-559 | After any run, if nothing but replies is produced any more, the readers and writers of both ends together take at most `Measure` further steps: PONGs and echoed CLOSEs never set off a ping-pong. |
| `Quiescence.SomethingMoves` | src/carrier.rs:492-582 | Between two live ends, while anything is in flight, some reader or writer has a step to take: a full channel or a full frame queue never blocks the reader for good. |
| `Quiescence.FramesRunOut` | src/carrier.rs:492-582 | Between two live ends the readers and writers alone, without losing a record or producing a new frame, can empty both frame queues, both wires and both readers' hands. |
| `Replies.RepliesAreCounted` | src/carrier.rs:536-558 | At both ends, after every run, while the writer is there: the nonces of the PONGs enqueued, then of the one in hand, are in order the nonces of the PINGs read; every DATA read was either accepted by its channel or answered by one CLOSE, with no further CLOSE but the stream's own; and every PONG read is counted once. Without the writer the PONGs are a prefix, and CLOSEs only fewer. So no CLOSE and no PONG is ever answered. |
| `Replies.CountedAnswers` | src/carrier.rs:549-558 | After every run, even on a lossy wire, no end has counted more PONGs than its peer has read PINGs. |
| `Limits.ChannelLimits` | src/carrier.rs:28-66 | After every run, in numbers: at most 256 frames wait for the writer and a sender waits exactly while 256 do; at most 64 chunks wait in an inbound channel, and the reader waits for an open one, and can time out on it, exactly while 64 do; what a socket read gave fits one DATA frame. |
| `Limits.OnlyRoomIsWaitedFor` | src/carrier.rs:747-760 | After every run: nothing but a full frame channel holds up the opening, the refusal or the uplink of any stream, whatever its downlink, the other streams or a death are about; and while the writer is there it can make room. |
| `Limits.ClosedPeerSaidAll` | src/carrier.rs:573-576 | A reader that reports a closed peer has been given every record that peer ever wrote; both loops of the peer have returned; and without loss it has read all of them. |
| `Happens.PingIsAnswered` | src/carrier.rs:549-558 | For any nonce and either end there is a run in which its PING is read, the PONG with that nonce comes back, and the counter goes to one. |
| `Happens.DialIsRefused` | src/server.rs:103-110 | A run in which the dial fails: the entry is gone at the server before the CLOSE is enqueued, and at the client once the CLOSE was handled; only that stream is hurt. |
| `Happens.StreamStalls` | src/carrier.rs:97-113 | A run in which the 65th chunk finds 64 waiting: the reader gives up, removes the entry, answers CLOSE and goes on, and only that stream is hurt. |
| `Happens.WriteFails` | src/carrier.rs:763-776 | A run in which a local write fails: the socket is FINed, the receiver dropped, the uplink goes on, and the next chunk is answered CLOSE while the entry stays. |
| `Happens.AttemptIsGivenUp` | src/client.rs:145-152 | A run in which the tunnel dies between the OPEN and the look at the flag: the OPEN is out, there is no pump and the receiver is dropped. |
| `Happens.OpenIsRefused` | src/client.rs:157-160 | A run in which the writer is gone before the OPEN: nothing is enqueued, and the attempt is given up. |
| `Happens.OpenBehindDyingWriter` | src/client.rs:145-152 | A run in which the writer has failed but not yet returned: the OPEN is still enqueued, never leaves, and only the second look at the flag gives the attempt up. |
| `Happens.PumpIsCut` | src/carrier.rs:752-776 | A run in which the tunnel dies under a running pump: the uplink stops at its failed send, its CLOSE is lost, and the downlink FINs. |
| `Quiescence.QuietStep` | src/carrier.rs:524-559 | Every reader, writer or loss step strictly decreases the measure of what is in flight; every other non-producing step leaves it alone. |
| `Tunnel.Always` | src/carrier.rs:295-330 | The invariant of the pair holds after every finite run from the freshly spawned tunnel. |
| `Tunnel.ServerSpeaksOfOpened` | src/client.rs:142-147 | Every id the server ever mentions belongs to a stream the client registered before its OPEN left. |
| `Bookkeeping.BookStep` | src/client.rs:139-154 | Every step keeps the bookkeeping: an OPEN is the first frame of its stream, no pump half moves before its spawn, ids come from the allocator, the writer's cursors are in order. |
| `Bookkeeping.AllocationsAreFresh` | src/carrier.rs:152-154 | The first 2^32 values of the wrapping allocator are pairwise different; the next one repeats the first. |
| `Bookkeeping.StepIsFresh` | src/carrier.rs:525-535 | Whenever a registration or an incoming OPEN happens, nobody has spoken of that id before. |
| `Integrity.UpStep` | src/carrier.rs:747-760 | Every step keeps: the DATA enqueued for a stream, plus what the uplink still has to send, is exactly what it read; after a failed send, a prefix. |
| `Integrity.AccStep` | src/carrier.rs:97-113 | Every step keeps: an inbound channel accepted a gap-free prefix of the stream's DATA, and all of it while the stream is registered and its receiver open; so a dropped chunk is always the last. |
| `Integrity.DownStep` | src/carrier.rs:763-776 | Every step keeps: what was written, what is being written and what waits in the channel together are the accepted chunks. |
| `Integrity.SendableStep` | src/carrier.rs:174-184 | Every DATA frame ever enqueued is non-empty and at most 16384 bytes. |
| `Integrity.EnqueuedByStep` | src/carrier.rs:174-184 | A step enqueues at most one frame, and a DATA frame is the next chunk of some uplink. |
| `Closing.CloseStep` | src/carrier.rs:546-548 | Every step keeps: a stream whose CLOSE was read is unregistered, so is one whose failed dial has been taken back, and a finished uplink or a refused dial has sent its CLOSE unless the writer is gone. |
| `Closing.CleanStep` | src/carrier.rs:525-548 | Every step keeps the exact accounting of registration, CLOSE and bytes of a stream to which nothing bad happens, on which the half-close theorems rest; steps of other streams may do anything. |
| `Death.DeathStep` | src/carrier.rs:263-283 | Every piece of every racing killer keeps the death invariant. |
| `Death.FanStep` | src/carrier.rs:485-534 | Every step keeps: on a dead client an entry of a pump means some killer has yet to clear; on the server the reader clears as its last act. |
| `Death.FanOutComplete` | src/carrier.rs:584-585 | When all killers have returned, a pump's downlink has no sender left and can drain what it holds and FIN. |
| `History.DataOfSubsequence` | src/carrier.rs:536-545 | Losing frames of the whole tunnel can only lose chunks of each stream; order and multiplicity stay. |
| `History.AllReadByClose` | src/carrier.rs:759 | If nothing follows a CLOSE, then reading the CLOSE means having read all DATA of that stream. |
| `Carrier.StreamRegistry.Register` | src/carrier.rs:84-90 | The new sender is in the table, all other entries untouched, the displaced sender (if any) returned. |
| `Carrier.StreamRegistry.Remove` | src/carrier.rs:117-123 | Exactly this entry goes, and it is returned. |
| `Carrier.StreamRegistry.CloseAll` | src/carrier.rs:126-128 | The table is empty. |
| `Carrier.StreamRegistry.Deliver` | src/carrier.rs:97-113 | True, with the chunk appended, exactly when the stream is registered, its receiver open and its channel not full; a full channel costs the stream its entry, a closed one does not; all this is what the machine's steps from lookup to verdict do. |
| `Carrier.LiveTunnel.AllocId` | src/carrier.rs:152-154 | Hands out the machine's next id and moves on, wrapping at 2^32. |
| `Carrier.LiveTunnel.SendFrame` | src/carrier.rs:162-167 | On the bounded channel the frame is queued if there is room; with the writer gone the caller is told so; otherwise the sender has to wait and nothing has happened. |
| `Carrier.LiveTunnel.RecvFrame` | src/carrier.rs:355-358 | The writer receives the frames in the order they were queued, which makes room. |
| `Carrier.LiveTunnel.Dispatch` | src/carrier.rs:524-559 | Dispatching one frame leaves registry, channels, frame queue and PONG counter as the machine's reader steps leave them, up to a reply it must wait with while the frame queue is full: an OPEN is registered before the next frame, a refused DATA is answered by one CLOSE, a CLOSE takes the entry away, a PING is answered by the PONG with its nonce, a PONG adds one to the counter and nothing else does. |
| `Carrier.LiveTunnel.Resume` | src/carrier.rs:549-555 | A waiting reply goes out once there is room or is dropped once the writer is gone, as the machine's step does, and waits otherwise. |
| `Carrier.LiveTunnel.OnData` | src/carrier.rs:536-545 | Delivery, and exactly when it fails one echoed CLOSE, queued, lost or left waiting. |
| `Carrier.LiveTunnel.KillWith` | src/carrier.rs:263-283 | The cause is set only if there was none, the flag is set, the registry is empty; the three machine steps of that killer do the same. |
| `Carrier.LiveTunnel.WriterExits` | src/carrier.rs:382-384 | The writer's own kill, followed by the drop of the frame receiver, is the machine's last writer steps: every later send fails. |
| `Mux.EncodeInto` | src/mux.rs:71-83 | Whatever the buffer held, afterwards it holds exactly the frame's bytes. |
| `Mux.EncodeLayout` | src/mux.rs:71-83 | Type, stream, 16-bit length and payload can be read back at their offsets; the length field is the payload length modulo 2^16. |
| `Mux.DecodeEncode` | src/mux.rs:71-136 | Decoding an encoded frame gives it back if and only if it is no DATA beyond 16384 bytes; otherwise the exact error: too large below 2^16 bytes, truncated from there on. |
| `Mux.EncodeDecode` | src/mux.rs:95-136 | Encoding a decoded buffer gives the buffer back, up to the zeroed stream field of PING and PONG. |
| `Mux.DecodeAccepts` | src/mux.rs:95-136 | `decode` accepts exactly the encodings of legal frames, up to that ignored field. |
| `Mux.WireFormat` | src/mux.rs:71-83 | The layout in numbers: one type byte from 1 to 5, four bytes of stream id and two of length, high byte first, then the payload; no payload for OPEN and CLOSE, eight bytes on stream 0 for PING and PONG, at most 16384 for DATA. |
| `Mux.DecodeErrors` | src/mux.rs:95-136 | Each error of `decode` arises exactly under its condition, with the values it reports: shorter than seven bytes, a length that is not what follows, an unknown type, a payload on OPEN or CLOSE, a DATA beyond 16384, a keepalive that is not eight bytes. |
| `Records.FirstRecord` | src/carrier.rs:428-441 | A record is five header bytes and as many more as the last two of them say, high byte first: the first record is found exactly when that many bytes are there, and is those bytes. |
| `Records.RecordsConserve` | src/carrier.rs:428-445 | The complete records of a stream and its leftover put together are the stream; each is exactly one record; none is left in the leftover. |
| `Records.RecordsAppend` | src/carrier.rs:415-445 | Cutting a stream anywhere and going on from the leftover finds the same records. |
| `Records.RecordBuf.constructor` | src/carrier.rs:408-413 | A valid, empty buffer. |
| `Records.RecordBuf.Push` | src/carrier.rs:416-423 | The chunk is behind what was pending; no byte is moved; the buffer grows by at most the chunk, and a buffer that was used up starts afresh. |
| `Records.RecordBuf.TakeRecord` | src/carrier.rs:428-445 | The next record of the pending bytes if one is complete, and then nothing is moved; otherwise nothing is taken and fewer than 65540 bytes remain. Taken records followed by pending bytes are always the bytes pushed, and the bytes ever moved never exceed the bytes ever pushed. |
| `Records.RecordBuf.Compact` | src/carrier.rs:449-454 | The pending bytes move to the front, once, and stay the same. |
| `Records.DrainThenRefill` | src/carrier.rs:487-581 | However the bytes are cut into reads, the records and the leftover are those of the whole stream, the bytes moved are at most the bytes pushed, and the buffer never exceeds 65539 + 16384 bytes. |
| `Records.RecordReader.ReadRecord` | src/handshake.rs:59-83 | Succeeds exactly when a whole record is buffered or still arrives, returns that record, and leaves the stream behind it; otherwise the error says whether the stream ended or failed. |
| `Records.RecordReader.ReadAll` | src/handshake.rs:59-83 | Reading to the end gives the same records and leftover as the cursor buffer: both are `RecordsOf` and `Leftover` of the bytes. |
| `ReaderLoop.HandleRecord` | src/carrier.rs:492-523 | One record against codec, streak and verdict: good resets the streak and is dispatched, bad counts, the eighth in a row is fatal with the cause of its kind. |
| `ReaderLoop.DispatchBuffered` | src/carrier.rs:492-560 | All complete buffered records are processed in order, up to a fatal one. |
| `ReaderLoop.ReadWire` | src/carrier.rs:482-585 | Frames, streak and cause of death are a function of the concatenated bytes and the way the wire ends, not of the cuts between reads: without a fatal record, which is a case of corruption or a bad frame, the cause is a closed peer exactly at EOF, a read error exactly after a failed read, and killed exactly when the flag was seen. |
| `ReaderLoop.ReadTwice` | src/carrier.rs:482-582 | Two ways of cutting the same bytes into reads give the same frames, streak and cause. |
| `ReaderLoop.StreakLaw` | src/carrier.rs:482-523 | The reader dies of corruption if and only if some record completes eight consecutive bad ones, at the first such record, with that record's cause, having dispatched exactly the good frames before it; otherwise all good frames were dispatched and the streak is the trailing bad run. |
| `ReaderLoop.FatalStays` | src/carrier.rs:498-522 | After a fatal record nothing more is dispatched. |
| `Wire.SendChunks` | src/carrier.rs:175-184 | The chunks concatenate to the data, none is empty, all but the last are full, all are addressed to the stream. |
| `Wire.WriteFrames` | src/carrier.rs:368-376 | The wire receives one sealed record per frame, in order, through one reused plaintext buffer. |
| `Wire.ReadsWhatWasSealed` | src/carrier.rs:368-376 | With codecs in step, the reader recovers exactly the sealed frames and ends with an empty streak; every record is within the 16672-byte bound. |
| `Wire.PipelineRoundTrip` | src/carrier.rs:482-582 | Any prefix of the sealed bytes, cut into reads in any way, is read as a prefix of the frames without a bad record; all of the bytes as all of the frames. |
| `Wire.BytesCarryTheFrames` | src/carrier.rs:354-384 | At any point of any run of the tunnel, the bytes of the records an end has written are read as exactly the frames the tunnel model puts on its wire. |
| `Lossy.LossyWire` | src/carrier.rs:46-51 | With records lost, mangled, repeated and reordered at will, and a codec that accepts each genuine record at most once, the frames dispatched are those of the accepted records in the order of acceptance, none twice. |
| `Lossy.LossyOrderIff` | src/carrier.rs:492-523 | They are a subsequence of the frames sent if (and, when no two frames are equal, only if) the records were accepted in sending order. |
| `Lossy.LossyOrder` | src/carrier.rs:492-545 | If nothing comes back on the wire, or the codec keeps a replay window and nothing overtakes, then frames and each stream's chunks arrive as subsequences of those sent. |
| `Lossy.RefusedThenReplayed` | src/carrier.rs:493-506 | Without a window at most once is not enough: a record that is refused, passed by a later one and then replayed is dispatched behind it. |
| `Wire.InverseCodecsExist` | src/carrier.rs:368-372 | The contract assumed of codecs in step can be met. |
| `Lossy.WindowedCodecExists` | src/carrier.rs:493-506 | A sliding window of any width meets both contracts, for any pairwise different records. |
| `Keepalive.KeepaliveLoop` | src/carrier.rs:611-655 | The loop, with its delayed ticks, kills exactly at the end of the grace of the first unanswered PING, unless the tunnel died before; that is two seconds after a multiple of the configured interval, or of two seconds if that is longer; if it does not kill, every PING whose grace ended in time was answered. |
| `Keepalive.Detection` | src/carrier.rs:607-610 | If no PONG is counted after time t, the tunnel is dead by t + max(ping, 2 s) + 1.999 s. |
| `Keepalive.DetectionIsTight` | src/carrier.rs:622-640 | A bound in whole milliseconds covers every counter history if and only if it is at least max(ping, 2 s) + 1999 ms. |
| `Keepalive.DocumentedBoundIff` | src/carrier.rs:40-44 | The documented bound of `ping` + 2 s holds for all histories if and only if `ping` is at least 2. |
| `Keepalive.KillsIffUnanswered` | src/carrier.rs:628-640 | The keepalive kills at some time if and only if some PING is not answered within its grace; so it never kills a peer that answers in time. |
| `Keepalive.FirstPingDecides` | src/carrier.rs:613-640 | It kills after exactly two seconds if and only if the first PING, sent at once, is not answered by then. |
| `Manager.AtMostOneLiveTunnel` | src/client.rs:63-73 | In every interleaving of connections and deaths at most one tunnel lives, it is the cached one whenever the mutex is free, and at most one task is inside the mutex. |
| `Manager.EachConnectionOnce` | src/client.rs:129-168 | Over every run: a connection has a pump exactly if one of its attempts found the tunnel alive behind the OPEN it had enqueued there, and then one, on that tunnel; it fails exactly after two attempts that each met a failed dial, a failed OPEN or a tunnel dead at the second look; it dials exactly as often as it found no live tunnel cached, and uses at most two dials and two OPENs. |
| `Manager.CacheIsNewest` | src/client.rs:63-73 | After every run the cache holds the newest tunnel put there, dead or alive: no failed dial, death or retry touches it. |
| `Manager.TunnelIsKept` | src/client.rs:131-156 | After every run: the tunnel a connection registers, opens, looks at again and pumps on is the one it was last given under the mutex (the cached one if it was alive then, or its own dial's), and its OPENs went, in order, to the tunnels it had been given. |
| `Manager.FirstConnectionIsServed` | src/client.rs:129-156 | A run in which a connection dials, opens and is served on its tunnel. |
| `Manager.DeadTunnelIsRetried` | src/client.rs:147-160 | A run in which the tunnel dies behind the OPEN, the connection goes round again with a fresh dial, and a failed OPEN then ends it. |
| `Manager.TasksFinish` | src/client.rs:129-168 | Each step of a connection task uses up its fuel and no other step gives any back, so every task takes boundedly many steps. |
| `Manager.SomebodyCanMove` | src/client.rs:63-73 | An unfinished task can step, or the holder of the mutex it waits for can. |
| `Handshake.AuthRoundTrip` | src/handshake.rs:346-356 | The server reads back the password from the client's layout always, and from the older layout exactly when it is non-empty and does not look like a marked device id. |
| `Handshake.AuthLayout` | src/handshake.rs:196-205 | In the client's message the proof is bytes 0 to 31, byte 32 is zero, the device id is bytes 33 to 48, and the password is the rest. |
| `Handshake.AuthVerdict` | src/handshake.rs:346-356 | Fewer than 33 bytes are too short; otherwise the password begins at byte 49 if there are that many and byte 32 is zero, and at byte 32 if not; it is returned exactly if it is UTF-8. |
| `Handshake.KeysAgree` | src/handshake.rs:159-170 | Both ends derive the same keys for both directions. |
| `Handshake.PasswordIsSentIff` | src/handshake.rs:146-194 | Against any peer: the client sends its password exactly if the six records it got are a ServerHello it can decapsulate, a ChangeCipherSpec, any three more, and an identity proof under the server-to-client key whose MAC is over its own hello and three of those records, by the pinned key if one is pinned; otherwise it fails. |
| `Handshake.OkIsTakenIff` | src/handshake.rs:212-221 | Against any peer: the client is done exactly on an OK under the server-to-client key. |
| `Handshake.LetInIff` | src/handshake.rs:322-330 | Against any peer: the server lets a client in exactly if the record behind its hello is sealed under the client-to-server key and carries the server's password. |
| `Handshake.ProofBindsTranscript` | src/handshake.rs:173-189 | Whatever was changed on the way: if a client accepts the identity proof a server made, then the hello that server saw is the client's, the ServerHello, Certificate and Finished the client saw are that server's, both derive the same keys, and the pin is that server's. The ticket is not bound. |
| `Handshake.HandshakeOutcome` | src/handshake.rs:132-341 | In every interleaving and under every cut into reads: a side that finishes implies matching password and pin, a side that fails implies a mismatch; a finished client has got the seven records of the server in order and a finished server the two of the client, each sealed under the key of its direction; and both hold the same keys, crossed, and the same transcript. |
| `Handshake.NoDeadlock` | src/handshake.rs:132-341 | Until both sides have finished or failed, one of them can write, read, take a record or see the end of the stream. |
| `Handshake.HandshakeEnds` | src/handshake.rs:132-341 | From every reachable state the handshake can be run to its end, and there both sides are done if password and pin match and both have failed if not. |
| `Handshake.StepUses` | src/handshake.rs:132-341 | Every handshake step uses up a piece of a script or bytes still to be read, so no run of the handshake goes on for ever. |
| `Handshake.ServerHandover` | src/handshake.rs:266-341 | When the server returns, its dropped reader is empty and the bytes still to come are exactly the client's tunnel records. |
| `Handshake.ClientHandover` | src/handshake.rs:132-230 | What the server wrote behind the OK is what the dropped reader holds plus what is still to come; the handover is clean if and only if the reader holds nothing. |
| `Handshake.LossIsOneRead` | src/handshake.rs:59-83 | However the bytes were cut into reads, a client that is done drops fewer than 16384 bytes with its reader. |
| `Handshake.PingCanBeLost` | src/carrier.rs:613-625 | Whenever the server has said OK and the client has not taken it, there is a continuation in which the first keepalive PING is pulled in behind the OK and lost. |
| `Handshake.SomeRunLosesPing` | src/handshake.rs:208-230 | For every matching configuration some run does lose it, provided one 16384-byte read can hold the OK and the PING. |
| `FirstPing.LostPingKills` | src/carrier.rs:613-640 | Under any clock over any run of the tunnel: if every PING an end sent so far was lost on the way and it sends no other before the grace of its first tick is over, then, whatever else both ends do, its keepalive, looking at the counter of that run, kills at the end of that grace. |
| `FirstPing.NoPingIsRead` | src/carrier.rs:549-555 | Once the PINGs of an end are lost, its peer reads none until that end sends another. |
| `FirstPing.KeepaliveStopsPinging` | src/carrier.rs:629-642 | Once a keepalive has begun to kill its tunnel, that end enqueues no PING any more. |
| `FirstPing.FirstPingLost` | src/handshake.rs:208-230 | Such a run exists: the server's first frame is a PING and its record never reaches the client's reader. |
| `Handshake.BufferHead` | src/handshake.rs:59-83 | Whatever the reads were, a complete record in the buffer is the next message written, and when everything has arrived the next message is complete. |
| `Handshake.FaithfulDressingExists` | src/handshake.rs:143-154 | Messages can be dressed as records that read back as those messages, so the assumption about dressings can be met. |
| `Options.SplitEntries` | src/opts.rs:158-192 | The character loop with its lookahead, and the filter behind it, compute `Parse`: however the string is made up of escaped characters, separators and characters standing for themselves, the entries are those of the texts between the separators. |
| `Options.TokensAreRead` | src/opts.rs:158-178 | However a raw string is made up of escaped characters (only `;`, `=` and the backslash can be), separators, and characters standing for themselves (a backslash among them, unless one of the three follows), the loop gives the texts between the separators. |
| `Options.EveryStringHasTokens` | src/opts.rs:158-178 | Every raw string is made up that way, so the previous row says what the loop gives for every input. |
| `Options.UnescapedIsVerbatim` | src/opts.rs:163-173 | If no backslash stands before `;`, `=` or a backslash, the pieces joined by `;` are the raw string, every backslash included. |
| `Options.PieceIsSplit` | src/opts.rs:180-191 | A piece is split at its first equals sign and both parts are trimmed. |
| `Options.PieceWithoutEquals` | src/opts.rs:180-191 | A piece without an equals sign, blank or not, gives no entry. |
| `Options.SpacedRoundTrip` | src/opts.rs:156-192 | Splitting inverts escaping and joining, with any white space around keys, values and entries, any number of blank entries added, and the equals signs of each value escaped or bare. |
| `Options.RoundTripIff` | src/opts.rs:15-16 | A list of pairs survives printing and splitting if and only if every key and value is trimmed and no key contains `=`, whether the equals signs of values are escaped or not. |
| `Options.EscapedKeyIsSplit` | src/opts.rs:184-189 | Otherwise, for a key with an escaped `=`, the part behind it moves into the value. |
| `Options.EscapedKeyExample` | src/opts.rs:184-189 | The pair (a=b, c) is read back as (a, b=c). |
| `Options.TrimPadded` | src/opts.rs:179-189 | Trimming gives back any trimmed text from between white space. |

## Left out

- The interleaved protocol is on values: an endpoint is a datatype and a step a function, since the claims are about
  every interleaving of many tasks. `Carrier` models the same operations as mutable objects, run without
  interruption. In the machine the registry is a set of ids and each stream holds its channel; that an id never
  stands for two channels is `Guarantees.RegisterNeverDisplaces`.
- More than 2^32 allocations on one tunnel: the machine stops allocating there.
- A server that sends OPEN: excluded by proof for the modelled server, not modelled for a foreign one.
- Guarantees.NoStreamLeak: says nothing about a client attempt abandoned on a dying tunnel. Its entry stays until some
  killer clears the registry; if every killer has returned by then, for as long as the tunnel object lives.
- Guarantees.HalfCloseDelivers: says that completion is always possible, not that the scheduler brings it about; the
  same goes for Settling.DeadEndSettles.
- Carrier.LiveTunnel.Dispatch: waiting is a result here (the reply comes back to be resumed), not a suspended task.
- Quiescence.SomethingMoves: writing a record always succeeds in time here; two tunnels whose TCP windows are both
  full rest on the source's timeouts and are not modelled.
- Keepalive.Detection: prompt polling and a PING enqueued at once are assumed; a full frame queue would delay it.
- Keepalive timing inside the two-endpoint machine: there a PING or a keepalive kill may happen at any time.
- The reader's exit on corruption or a read error may happen at any point between two records in the machine; exactly
  when it happens is `ReaderLoop.StreakLaw`.
- Manager: dial and handshake are one step that may fail; tunnels are opaque and may die at any time.
- Handshake: X25519, ML-KEM, key derivation, the identity proof and the AEAD are symbolic; replay counters, low-order
  keys, timeouts and blocking writes are not modelled, and the text behind `OK:` is not. What either side accepts is
  stated for arbitrary messages; the runs are those of two honest sides, and what an attacker could compute is not
  modelled.
- FirstPing.FirstPingLost: a record swallowed by the dropped handshake reader is the loss of a record in the tunnel
  machine; this is how the two models are put side by side, not a theorem. That the next PING is not due before the
  grace is over is `FirstPing.NextPingIsLater`.
- Handshake.PingCanBeLost: stated for a server that writes its first PING before the client takes the OK and a read
  large enough to hold both.
- Failures of sealing a record: the writer's exit for that reason is a possible step, not a result of the codec.
- "Logged exactly once" and "shutdown kills every tunnel": the log check and the cause write are separate steps, and
  a connection task may push its tunnel after the shutdown drain, so only the one-sided forms above hold.
- The server's accept loop and list of live tunnels, the JSON configuration, command line, address resolution, boolean
  and SNI validation and the key and hex parsing: single-branch checks or calls into libraries.
- The internals of `qeli_core`, tokio, sockets and the `WriteFin` system call, which are not part of this model.
- Unicode beyond the list of white-space characters that trimming strips.
