# Access server: framing, verification, routing, wire codec and driver

An access server ("acc") stands between game clients and business servers. A client speaks a
byte stream to it; the access server cuts the stream into packets, has the first one judged by a
verify server, and from then on forwards every packet to the business server its command is
routed to. A business server links in a driver, which keeps a connection to every access server
and turns what arrives into callbacks. This project models the three parts and proves what holds
of them in every run, and of the path through all three.

| file | content |
|---|---|
| `Bytes.dfy` | bytes, fixed-width integers, little-endian numbers, `char` as signed or unsigned |
| `Proto.dfy` | the wire grammar between access server and driver: parsers, serializers, round trips |
| `WireLayout.dfy` | where the parts of each message lie on the wire, told without the parsers |
| `ProtoCodec.dfy` | the grammar as it is programmed: a cursor that advances, a buffer that is appended to |
| `Framing.dfy` | how a client's bytes split into packets |
| `ExternalCon.dfy` | one client connection as a state with one function per operation, the servers' messages about it, and runs |
| `ExternalSvrCon.dfy` | the connection object, updated in place, proved against `ExternalCon` |
| `ExternalRuns.dfy`, `ClientTrace.dfy` | what holds of a client connection in every run |
| `ClientBook.dfy` | a client connection kept account of from the events alone, and what the client reads |
| `Chunking.dfy`, `ClientStream.dfy` | what the cutting of a stream into receive events changes |
| `InnerCon.dfy` | what the servers' messages can and cannot do to a client in every run: verdicts, pauses, announcements |
| `Driver.dfy` | the driver's connections and their manager, one function per operation |
| `DriverObjects.dfy` | the driver's objects, updated in place, proved against `Driver` |
| `DriverRuns.dfy` | what holds of the driver in every run |
| `DriverBook.dfy` | the manager kept account of from the events alone, `Init` and `AddAcc`, the handshake |
| `EndToEnd.dfy` | from a client's bytes to a business server's callbacks, one event at a time |
| `ClientPause.dfy` | what is forwarded over whole runs, and what a pause does to that |
| `Hearing.dfy` | what a driver makes of each pack about a client, alone, one after the other, or among other events |
| `ClientLife.dfy` | whole lives of a client as the user of one server hears them |

A class method is proved to do to the whole state what the function of the same name says; the
theorems are about those functions. A run is any list of events: bytes received, the servers'
messages as `acc_svr/inner_con.cpp` handles them (verdicts, messages for the client, route, cache
and user id requests with their answers and broadcasts, registrations, the order to disconnect),
timeouts; on the driver's side connects, disconnects, messages and the calls of its user. Server-wide
state (settings, command groups, registered servers, the verify server chosen) is a parameter of each
event, so that it may change between any two.

Two books give a second reading, from the events alone: of a client connection, with a finite map for
the routing vector, lists of packets for the receive loop, and messages as the client reads them for
the bytes sent; of the driver's manager, with its connections, registration results and lost servers.
In every run the connection and the manager are as the books say. The log of a client connection says
of each pack to which server or servers it is sent; a script says of each what the driver's table
holds for the client after it and which callback is made.

## Where the code and its documentation differ

The code is what is modelled. Where a promise does not hold, a lemma says exactly when it does.

- A pause of a client's messages (`acc_svr/external_con.h:51`, `doc.md`) holds nothing back: a
  packet that arrives meanwhile is buffered and forwarded at once, and forwarded again on resume
  (`acc_svr/external_con.cpp:272-279`). `ClientPause.PauseForwardsTwice` says exactly when the server
  is left in peace: when no packet that arrives, and none that is held, is for it.
  `ClientPause.PauseShown` is a run in which a packet arrives twice.
- Heartbeats are held by a pause like any other packet, so those that arrive during one are answered
  when they arrive and again on resume: `ClientBook.BeatsAnsweredTwice`.
- A server that registers late is told of the clients verified before (`acc_svr/inner_con.cpp:351-369`),
  but not under the user id their verdict announced, which is not stored
  (`acc_svr/inner_con.cpp:99-104`): `ClientBook.RecoveredUnderLastUin` says under which.
- A negative verdict is meant to send the client back to its initial state, to ask again
  (`acc_svr/external_con.h:40`). No message reaches that transition (`acc_svr/inner_con.cpp:89-92`):
  in every run verdicts never fail, a client is put to a verify server once at most
  (`InnerCon.NoVerdictFails`), and it never goes back to an earlier phase
  (`ExternalRuns.PhaseNeverGoesBack`); refused, it waits until its timer closes the connection.
- A positive verdict announces a session to every server even if the client was not waiting for
  one, in which case it is not verified (`acc_svr/inner_con.cpp:93-123`).
  `InnerCon.AnnouncedIsVerified` gives the exact condition, `InnerCon.AnnouncedUnverified` a run.
  Such a session stays in the drivers' tables after the client is gone unless it is verified later:
  `ClientLife.StaysOpen` says exactly which sessions do, `ClientLife.LeftOpen` is a run.
- A client that has not been verified is meant to be disconnected in the end. One whose first packet
  cannot be forwarded loses its first timer and gets no other (`acc_svr/external_con.cpp:340-350`).
  `ClientTrace.TimerlessInEveryRun` says exactly which clients no timer watches,
  `ClientTrace.ShortPacketUntimed` gives an input.
- The receive loop goes on with the rest of its buffer after a packet made it close the connection
  (`acc_svr/external_con.cpp:241-257`), so the outcome can depend on how the stream was cut.
  `ClientStream.ChunkingExact` gives the exact condition, `ClientStream.TwoUnroutable` a run and an input.
- The old-style seed is taken off the length but not off the buffer
  (`acc_svr/external_con.cpp:102-133`). `ClientStream.SeedChunkingExact` gives the exact condition
  under which that cannot be noticed, `ClientStream.FirstPacketInGap` an input.
- Each message type checks its own size against 4096, and the outer message checks again. What
  arrives is less than either check suggests: client packets up to 4081 bytes, refusal texts up to
  4067, account name and answer up to 4064 together, broadcasts with 8 + 8n + m up to 4095.
- A driver without server id is not greeted on connect, so stored settings are not sent either
  (`acc_driver/src/connect.cpp:49-66`). `DriverRuns.SettingsConverge` says exactly when they are,
  `DriverRuns.UngreetedGetsNothing` is a run in which they are not.
- Bytes are compared as `char` with values from 0x80 on (`acc_svr/external_con.cpp:104-140`). Where
  `char` is signed none of them matches, so no packet of any client is ever taken:
  `ClientTrace.SignedCharHearsNobody`. The build files choose no signedness.

## Assumptions

- `char` is signed or unsigned throughout (`Bytes.CharKind` is a parameter); integers on the wire
  are little-endian, structures are packed as `acc_proto/include/proto.h` lays them out.
- The connection library: a timer fires once; after `DisConnect` no further receive event is
  raised; packs are sent in order; unconsumed bytes are presented again together with later ones;
  `GetRemoteAddr` names the configured address; a message arrives with its length as `uint16`, in
  a buffer of at least 16 readable bytes.
- A parser that reads past the readable memory, or reserves more than there is, ends in `Fault`;
  nothing is claimed about what follows.
- `L_COND` returns, `L_ASSERT` only logs. User callbacks do not call back into the driver.

## Model

Rows about the handlers of `acc_svr/inner_con.cpp` cite the code a handler calls, or the code that
reads what it sends, and name the handler's own lines in the last column.

| member | source | states |
|---|---|---|
| Bytes.LeValOfLe | acc_proto/src/proto.cpp:43-47 | an integer stored in n bytes and read back is the integer, for every value that fits |
| Bytes.LeOfLeVal | acc_proto/src/proto.cpp:7-12 | reading n bytes and storing the value again gives the same bytes |
| Bytes.CharToU32 | acc_svr/external_con.cpp:326-334 | the command a first byte is read as: the byte itself where char is unsigned; where it is signed, sign-extended from 0x80 on |
| Proto.AsRoundTrip | acc_proto/src/proto.cpp:67-90 | an outer message of at most 65535 bytes, whatever follows it in memory, parses to its command and body, unless the body has 4096 bytes or more: then it is rejected |
| Proto.ForwardRoundTrip | acc_proto/src/proto.cpp:160-202 | every forward that serializes parses back, field by field and text byte by byte, whatever follows |
| Proto.ForwardCanonical | acc_proto/src/proto.cpp:160-185 | on arbitrary memory: rejected exactly for a stored length of 4096 or more, faults exactly below 14 bytes, and what is accepted is the serialization of what was read |
| Proto.ClientMsgRoundTrip | acc_proto/src/proto.cpp:344-382 | every client message that serializes parses back from any memory that begins with its bytes |
| Proto.VerifyRetRoundTrip | acc_proto/src/proto.cpp:243-275 | nested round trip: every verdict that serializes and fits a length parameter parses back into a fresh object with account name and embedded answer; without a Fault even if nothing behind it is readable |
| Proto.VerifyRetDelivered | acc_proto/src/proto.cpp:67-90 | wrapped in the outer message a verdict arrives whole if and only if account name and answer have at most 4064 bytes together |
| Proto.BroadCastLength | acc_proto/src/proto.cpp:231-240 | a broadcast to n clients of an m-byte message takes 8 + 8n + m bytes |
| Proto.BroadCastRoundTrip | acc_proto/src/proto.cpp:209-240 | every broadcast that serializes fits a length parameter and parses back with the same client ids in the same order and the same message |
| Proto.BroadCastDelivered | acc_proto/src/proto.cpp:209-240 | wrapped in the outer message it arrives, list and message, if and only if 8 + 8n + m is at most 4095; otherwise it is rejected, not misread |
| Proto.SetingRoundTrip | acc_proto/src/proto.cpp:288-334 | settings parse back whole whenever the refusal text is shorter than 4096 bytes |
| Proto.SetingCanonical | acc_proto/src/proto.cpp:288-315 | settings accepted from any memory are the serialization of what was read |
| Proto.SetingDelivered | acc_proto/src/proto.cpp:67-90 | wrapped in the outer message settings arrive if and only if the text has at most 4067 bytes |
| Proto.Cmd2GrpAccepts | acc_proto/src/proto.cpp:384-399 | whatever follows it in memory, a buffer is accepted as a command list if and only if its length is 10 plus twice the stored count |
| Proto.Cmd2GrpCanonical | acc_proto/src/proto.cpp:384-406 | an accepted buffer is the serialization of what was read, whatever follows it |
| Proto.Cmd2GrpRoundTrip | acc_proto/src/proto.cpp:384-406 | every command list that fits a length parameter parses back: with the row above, inverse bijections |
| WireLayout.LowBytesFirst | acc_proto/src/proto.cpp:7-12 | integers lie on the wire with the low bytes first: n bytes in front of others count as themselves, the others 256 to the n times |
| WireLayout.AsLayout | acc_proto/src/proto.cpp:92-109 | an outer message is two bytes of command and the body |
| WireLayout.ForwardLayout | acc_proto/src/proto.cpp:187-202 | a forward holds the client id at 0, the command at 8, the length at 12, the text from 14 on |
| WireLayout.ClientMsgLayout | acc_proto/src/proto.cpp:368-382 | a client message holds the command at 0, the length at 4, the text from 6 on |
| WireLayout.VerifyRetLayout | acc_proto/src/proto.cpp:263-275 | a verdict holds the client id at 0, the outcome at 8, the user id at 9, the name behind its length from 25 on, then the answer |
| WireLayout.BroadCastLayout | acc_proto/src/proto.cpp:231-240 | a broadcast holds the number of ids at 0, id i at 2 + 8i, then the message |
| WireLayout.SetingLayout | acc_proto/src/proto.cpp:317-334 | settings hold the three heartbeat fields at 0, 4 and 8, the limit at 12, the refusal command at 16, its text behind its length from 22 on, then time limit and default group |
| WireLayout.Cmd2GrpLayout | acc_proto/src/proto.cpp:401-406 | a command list holds the group at 0, the number of commands at 2, command i at 10 + 2i |
| WireLayout.RefusedUnread | acc_proto/src/proto.cpp:67-76 | told a length and given nothing to read, each parser refuses exactly what is too short for it and would read anything else; null is always refused |
| ProtoCodec.Cursor.constructor | acc_proto/src/proto.cpp:77 | a cursor starts at the first byte |
| ProtoCodec.Cursor.ParseCp | acc_proto/src/proto.cpp:7-12 | reads n bytes as a little-endian integer and leaves the cursor behind them; out of bounds it faults and stays |
| ProtoCodec.Cursor.ParseU16 | acc_proto/src/proto.cpp:7-12 | the 16-bit read of the grammar, cursor advanced |
| ProtoCodec.Cursor.ParseU32 | acc_proto/src/proto.cpp:7-12 | the 32-bit read of the grammar, cursor advanced |
| ProtoCodec.Cursor.ParseU64 | acc_proto/src/proto.cpp:7-12 | the 64-bit read of the grammar, cursor advanced |
| ProtoCodec.Cursor.ParseBytes | acc_proto/src/proto.cpp:18-19 | takes exactly the next n bytes |
| ProtoCodec.Cursor.ParseString | acc_proto/src/proto.cpp:13-20 | a text behind its 64-bit length, appended to what the destination held |
| ProtoCodec.Cursor.ParseMany | acc_proto/src/proto.cpp:21-33 | the element loop reads exactly the n consecutive integers of the grammar, in order |
| ProtoCodec.ParseAsMsg | acc_proto/src/proto.cpp:67-90 | reads what the grammar reads as an outer message, the same rejections included |
| ProtoCodec.ParseForwardMsg | acc_proto/src/proto.cpp:160-185 | reads what the grammar reads as a forward |
| ProtoCodec.ParseForwardFields | acc_proto/src/proto.cpp:170-184 | the field reads of a forward in their order |
| ProtoCodec.ParseClientSvrMsg | acc_proto/src/proto.cpp:344-366 | reads what the grammar reads as a client message |
| ProtoCodec.ParseClientMsgFields | acc_proto/src/proto.cpp:350-365 | the field reads of a client message in their order |
| ProtoCodec.ParseVerifyHead | acc_proto/src/proto.cpp:253-258 | the fields in front of the embedded answer, cursor left at the answer |
| ProtoCodec.ParseVerifyRetFields | acc_proto/src/proto.cpp:253-260 | head and embedded answer; the answer's rejection is ignored |
| ProtoCodec.ParseVerifyRetMsg | acc_proto/src/proto.cpp:243-261 | reads what the grammar reads as a verdict |
| ProtoCodec.ParseBroadCastFields | acc_proto/src/proto.cpp:216-228 | id list and message, the message parser being told the remaining length modulo 2^16 |
| ProtoCodec.ParseBroadCastMsg | acc_proto/src/proto.cpp:209-229 | reads what the grammar reads as a broadcast |
| ProtoCodec.ParseHeartBeat | acc_proto/src/proto.cpp:296-298 | the heartbeat part of settings |
| ProtoCodec.ParseText | acc_proto/src/proto.cpp:303-311 | a text behind its 16-bit length, rejected from 4096 bytes on |
| ProtoCodec.ParseLimit | acc_proto/src/proto.cpp:300-311 | the client limit part of settings |
| ProtoCodec.ParseSetingFields | acc_proto/src/proto.cpp:294-314 | all parts of settings in their order |
| ProtoCodec.ParseAccSeting | acc_proto/src/proto.cpp:288-315 | reads what the grammar reads as settings |
| ProtoCodec.ParseCmd2GrpFields | acc_proto/src/proto.cpp:391-393 | group and command list, appended to the commands the object held |
| ProtoCodec.ParseSetCmd2GrpId | acc_proto/src/proto.cpp:384-399 | reads what the grammar reads as a command list; the cursor must end at the length |
| ProtoCodec.SerialVector | acc_proto/src/proto.cpp:56-64 | appends the count and then every element in order |
| ProtoCodec.SerializeForward | acc_proto/src/proto.cpp:187-202 | appends the grammar's bytes, or nothing if command or length are refused |
| ProtoCodec.SerializeClientMsg | acc_proto/src/proto.cpp:368-382 | appends the grammar's bytes, or nothing if command or length are refused |
| ProtoCodec.SerializeVerifyRet | acc_proto/src/proto.cpp:263-275 | appends the grammar's bytes; refused late it leaves its head behind |
| ProtoCodec.SerializeBroadCast | acc_proto/src/proto.cpp:231-240 | appends the grammar's bytes for fewer than 512 ids; refused late it leaves its head behind |
| ProtoCodec.SerializeAccSeting | acc_proto/src/proto.cpp:317-334 | appends the grammar's bytes, the text length truncated to 16 bits |
| ProtoCodec.SerializeSetCmd2GrpId | acc_proto/src/proto.cpp:401-406 | appends the grammar's bytes |
| ProtoCodec.SerializeAs | acc_proto/src/proto.cpp:92-109 | replaces the buffer by command and body, a null body being left out; refusals leave it alone |
| ProtoCodec.SerializeAsBody | acc_proto/src/proto.cpp:111-123 | replaces the buffer by command and body whatever the length of the body |
| ProtoCodec.SerializeAsForward | acc_proto/src/proto.cpp:125-138 | replaces the buffer by command and forward; a refused forward leaves the command alone behind |
| Framing.WaitsForMore | acc_svr/external_con.cpp:188-236 | the framer waits exactly as long as more bytes can change its decision; a packet or a refusal found is final |
| Framing.FrameSplits | acc_svr/external_con.cpp:241-257 | any bytes are exactly the packets found followed by the rest; every piece is a packet, the rest is incomplete or bad, and each packet takes at least 3 bytes |
| Framing.FrameOfPackets | acc_svr/external_con.cpp:241-257 | packets put together are found again, followed by whatever the bytes behind them contain |
| Framing.FrameAppend | acc_svr/external_con.cpp:241-257 | framing a buffer and then its rest with more bytes is framing all at once |
| Framing.FramerInverse | acc_svr/external_con.cpp:151-159 | where char is unsigned, any packets of at least 3 bytes that hold their own big-endian length are recovered and nothing is left |
| Framing.SignedPackets | acc_svr/external_con.cpp:151-159 | where char is signed, exactly those packets are recognised whose two length bytes are below 0x80 |
| Framing.HeadMeans | acc_svr/external_con.cpp:136-236 | what one look at the buffer decides, in terms of its bytes: closed exactly for a first byte outside the nine listed ones while not verified (where char is signed, for all), or an announced length below 3 (or a length byte from 0x80 on); a packet exactly if the announced length is there |
| ExternalCon.Resized | acc_svr/external_con.cpp:77-80 | growing the routing vector keeps its entries and adds zeros |
| ExternalRuns.TimersInEveryRun | acc_svr/external_con.cpp:370-381 | in every run at most one session timer is armed, each only in its phase; the first-message timer only before any packet; a connected waiting client has the verify timer; its handler's assertion holds |
| ExternalRuns.VerificationInEveryRun | acc_svr/external_con.cpp:336-368 | in every run verify requests sent are verdicts accepted plus one if waiting; verified means a positive verdict was accepted; nothing is forwarded before it, replays included |
| ExternalRuns.PhaseNeverGoesBack | acc_svr/external_con.cpp:39-56 | whatever happens, a client never returns to an earlier phase; waiting is left only by being verified |
| ExternalRuns.VerifiedForGood | acc_svr/external_con.cpp:39-56 | a verified client stays verified whatever happens |
| InnerCon.CacheInEveryRun | acc_svr/external_con.cpp:85-96 | in every run a client is paused exactly if the last pause in its log was not ended, and then verified; the buffer is exactly what was handed over since that pause began, in order, and empty without a pause |
| InnerCon.PendingMeans | acc_svr/external_con.cpp:272-279 | what the tally calls pending is read off the log: the packets handed over since the pause began |
| InnerCon.NoVerdictFails | acc_svr/external_con.cpp:39-56 | in every run no verdict accepted is negative, a verify request is sent once at most, and none exactly in the initial phase (handler: acc_svr/inner_con.cpp:74-125) |
| ExternalRuns.FlushForwardsBuffer | acc_svr/external_con.cpp:85-96 | switching the cache off forwards exactly the buffered packets once, in order, by the routes and settings of that moment, leaves the buffer empty and changes nothing else but the heartbeat timer and the connection |
| ExternalRuns.RoutingInEveryRun | acc_svr/external_con.cpp:403-427 | in every run the vector has at most 100 slots, slot 0 is 0, and routing by it is the finite map of servers last set: command to group, group to its server or else itself, unmapped commands to the default group |
| ExternalRuns.VectorMeans | acc_svr/external_con.cpp:72-82 | at most 100 slots, slot 0 is 0, and slot by slot the vector holds the server last accepted for the group, 0 if none was |
| ClientBook.BookInEveryRun | acc_svr/external_con.cpp:39-458 | in every run the connection is as a book kept from the events alone says: phase and connection, packets taken and bytes kept back, the server of every command, user id, pause and buffer, all the client reads, and which timers run |
| ClientBook.BytesInEveryRun | acc_svr/external_con.cpp:241-257 | conservation over a whole run: the bytes received while connected are the packets handed over, in order, followed by those kept back |
| ClientBook.RoutedAsRequested | acc_svr/external_con.cpp:403-427 | in every run a command goes, by its group, to the server last asked for that group by a request with accepted ids that found the client verified, else to the group itself, and without a group to the default one (handler: acc_svr/inner_con.cpp:179-214) |
| ClientBook.RouteReqTakesEffect | acc_svr/external_con.cpp:72-82 | one accepted request sends the commands of its group to its server and leaves the route of all others (handler: acc_svr/inner_con.cpp:179-214) |
| ClientBook.PackReads | acc_svr/external_con.cpp:63-69 | a message to the client has 4 + n bytes and is read there as the command and the text |
| ClientBook.HearsInEveryRun | acc_svr/external_con.cpp:63-69 | server to client, over any run: the client reads, one by one and in order, the refusal if there were too many, the answer to each verdict, what servers say to it once verified, and an answer to each heartbeat; nothing else (handlers: acc_svr/inner_con.cpp:74-125 and 404-435) |
| ClientBook.BeatsAnsweredTwice | acc_svr/external_con.cpp:272-279 | heartbeats that arrive during a pause are answered at once and again on resume |
| ClientBook.RecoveredUnderLastUin | acc_svr/external_con.h:66-67 | after any run a registering server is told of a verified client under the user id last broadcast, 0 if none was, and of no other client (function: acc_svr/inner_con.cpp:351-369) |
| ExternalRuns.EarlyMeans | acc_svr/external_con.cpp:259-282 | the tally's flag means: every forward in the log comes behind a positive verdict |
| ExternalRuns.StepInv | acc_svr/external_con.cpp:39-96 | every event, servers' messages included, keeps the invariant that ties phase, timers, cache and routes to the log |
| ExternalRuns.RevPacketInv | acc_svr/external_con.cpp:259-282 | handing over a packet keeps that invariant, in every phase |
| ExternalRuns.SetCacheInv | acc_svr/external_con.cpp:85-96 | pausing and flushing keep it |
| ClientTrace.WatchedInEveryRun | acc_svr/external_con.cpp:289-309 | in every run, while connected: the timer of refused clients runs if and only if there were too many when the client came, the first-message timer if and only if it was let in with a limit and no packet of it was taken, the heartbeat timer if and only if a heartbeat was answered |
| ClientTrace.TimerlessInEveryRun | acc_svr/external_con.cpp:336-368 | in every run with a limit set, a connected client that was neither refused nor verified has no session timer if and only if it still is in its first phase and some packet of it was taken |
| ClientTrace.ShortPacketUntimed | acc_svr/external_con.cpp:340-350 | an input: a first packet of three bytes leaves a client connected, unverified and without a timer |
| ClientTrace.SignedCharHearsNobody | acc_svr/external_con.cpp:136-148 | where char is signed, in every run a client stays in its first phase, no packet of it is taken and no server is sent one |
| ClientTrace.TracedInEveryRun | acc_svr/external_con.cpp:336-368 | in every run, flushes included, each pack sent to a server wraps a packet this client had sent before: its id, first byte as command, all its bytes |
| Chunking.PumpIsFrame | acc_svr/external_con.cpp:241-257 | the receive loop is: frame the buffer, hand over the packets in order, close on a framing error, return the framed length |
| Chunking.CutProofExact | acc_svr/external_con.cpp:241-257 | for any packet handler: all cuts of a stream end alike if and only if no packet but the last is rejected |
| Chunking.NewSeedExact | acc_svr/external_con.cpp:102-110 | the same for a fresh connection whose first byte is 0xEF |
| Chunking.OldSeedExact | acc_svr/external_con.cpp:112-133 | for any other first byte: if and only if, in addition, the stream's length misses the gap of four bytes |
| ClientStream.StreamOutcome | acc_svr/external_con.cpp:241-257 | a receive event hands over exactly the packets framed, returns their total length, retains exactly the rest, and closes the connection exactly for a framing error or a rejected packet |
| ClientStream.StaysConnected | acc_svr/external_con.cpp:383-433 | a packet disconnects a connected client if and only if it has at least 4 bytes and either the client is verified, it is no heartbeat and its route is 0 (no group and no default group, or group 0 without a server), or the client is in its first phase, the packet could be put to a verify server and there is none; a packet for a server that is not there is only dropped |
| ClientStream.PacketsComeThrough | acc_svr/external_con.cpp:241-257 | well-formed packets of a verified client sent back to back are handed over one by one and wholly consumed |
| ClientStream.ChunkingExact | acc_svr/external_con.cpp:241-282 | chunking independence: every cut into receive events ends in the same state, log and retained bytes, if and only if no packet but the last makes the server give the client up |
| ClientStream.FreshChunkingExact | acc_svr/external_con.cpp:104-110 | the same for a fresh client whose stream starts with 0xEF |
| ClientStream.SeedChunkingExact | acc_svr/external_con.cpp:112-133 | the exact condition for streams that start with an old-style seed |
| ClientStream.TwoUnroutable | acc_svr/external_con.cpp:428-433 | a run and an input where cutting shows: a verified client sends two packets nobody takes |
| ClientStream.LoggedIn | acc_svr/external_con.cpp:336-368 | a run that verifies a client |
| ClientStream.FirstPacketInGap | acc_svr/external_con.cpp:112-133 | an input in the gap: a first packet of five bytes is taken for incomplete |
| InnerCon.AnnouncedInRun | acc_svr/external_con.cpp:39-61 | which positive verdicts of a whole run announce a session: exactly those with a name that fits 20 bytes on a client not verified yet, awaited or not; once it is verified none (handler: acc_svr/inner_con.cpp:74-125) |
| InnerCon.AnnouncedIsVerified | acc_svr/external_con.cpp:39-61 | the client is verified by an announcing verdict if and only if it was waiting (handler: acc_svr/inner_con.cpp:74-125) |
| InnerCon.AnnouncedUnverified | acc_svr/external_con.cpp:39-46 | a run in which a client that sent nothing is announced and not verified (handler: acc_svr/inner_con.cpp:74-125) |
| ClientConnection.ExternalSvrCon.constructor | acc_svr/external_con.cpp:10-19 | a fresh object is the fresh state and satisfies the invariant |
| ClientConnection.ExternalSvrCon.OnConnected | acc_svr/external_con.cpp:289-309 | refuses above the limit with the configured answer, else arms the first-message timer if configured; establishes the invariant |
| ClientConnection.ExternalSvrCon.SendMsg | acc_svr/external_con.cpp:63-69 | sends the command and the first len bytes of the text |
| ClientConnection.ExternalSvrCon.SetVerify | acc_svr/external_con.cpp:39-56 | whole new state, nothing unless a verdict is awaited; keeps the invariant |
| ClientConnection.ExternalSvrCon.IsVerify | acc_svr/external_con.cpp:58-61 | true exactly in the verified phase |
| ClientConnection.ExternalSvrCon.SetActiveSvrId | acc_svr/external_con.cpp:72-82 | whole new state: vector grown and assigned, or unchanged for refused ids; keeps the invariant |
| ClientConnection.ExternalSvrCon.SetCache | acc_svr/external_con.cpp:85-96 | whole new state of a pause or flush, the flush being a loop over the buffer; keeps the invariant |
| ClientConnection.ExternalSvrCon.Replay | acc_svr/external_con.cpp:89-92 | the flush loop carries out the fate of every buffered packet in order |
| ClientConnection.ExternalSvrCon.ToForward | acc_svr/external_con.cpp:326-334 | the forward made of a packet, or none below four bytes |
| ClientConnection.ExternalSvrCon.Forward2VerifySvr | acc_svr/external_con.cpp:336-368 | whole new state for a first packet: dropped, given up, or asked with the verify timer armed |
| ClientConnection.ExternalSvrCon.ChooseSvr | acc_svr/external_con.cpp:407-427 | the server a command is routed to |
| ClientConnection.ExternalSvrCon.Forward2Svr | acc_svr/external_con.cpp:383-452 | whole new state for a later packet: heartbeat answered, given up, dropped, or forwarded to the server routed to |
| ClientConnection.ExternalSvrCon.RevPacket | acc_svr/external_con.cpp:259-282 | whole new state in each phase, buffering included |
| ClientConnection.ExternalSvrCon.HandleSeed | acc_svr/external_con.cpp:102-133 | which first bytes seed, wait or close, and the length left |
| ClientConnection.ExternalSvrCon.CheckEncrypted | acc_svr/external_con.cpp:136-148 | closes exactly for an unknown first byte of a client not verified |
| ClientConnection.ExternalSvrCon.FirstPacket | acc_svr/external_con.cpp:188-236 | the framing decision on the counted bytes |
| ClientConnection.ExternalSvrCon.ParsePacket | acc_svr/external_con.cpp:164-240 | new state and packet length |
| ClientConnection.ExternalSvrCon.NextPacket | acc_svr/external_con.cpp:247-253 | one round of the receive loop leaves exactly what the loop has to do from there |
| ClientConnection.ExternalSvrCon.Drain | acc_svr/external_con.cpp:241-257 | the loop terminates with the state and total of the recursive reading |
| ClientConnection.ExternalSvrCon.OnRawRecv | acc_svr/external_con.cpp:241-257 | new state and bytes consumed; keeps the invariant |
| ClientConnection.ExternalSvrCon.OnWaitFirstMsgTimeOut | acc_svr/external_con.cpp:454-458 | disconnects; keeps the invariant |
| ClientConnection.ExternalSvrCon.OnVerifyTimeOut | acc_svr/external_con.cpp:370-375 | its assertion holds, then disconnects; keeps the invariant |
| ClientConnection.ExternalSvrCon.OnHeartbeatTimeOut | acc_svr/external_con.cpp:377-381 | disconnects; keeps the invariant |
| ClientConnection.HandleVerifyRet | acc_svr/external_con.cpp:39-69 | the client is answered first; then a positive verdict is accepted and announced, a long name only accepted, a repeated or negative verdict ignored (handler: acc_svr/inner_con.cpp:74-125) |
| ClientConnection.HandleForward | acc_svr/external_con.cpp:58-69 | a server's message is sent to verified clients only (handlers: acc_svr/inner_con.cpp:245-293 and 409-430) |
| ClientConnection.HandleSetActiveSvr | acc_svr/external_con.cpp:58-82 | for verified clients only the route is set and the asking server answered, also when the ids are refused (handler: acc_svr/inner_con.cpp:179-214) |
| ClientConnection.HandleCacheMsg | acc_svr/external_con.cpp:85-96 | for verified clients only the asking server is answered and then the pause or flush done (handler: acc_svr/inner_con.cpp:216-244) |
| ClientConnection.HandleBroadcastUin | acc_svr/external_con.h:66-67 | the user id is stored and told to every registered server but the one it came from (handler: acc_svr/inner_con.cpp:126-162) |
| ClientConnection.RevertSession | acc_svr/external_con.h:66-67 | a server that registers is told of a verified client with its stored user id (function: acc_svr/inner_con.cpp:351-369) |
| ClientConnection.Destroy | acc_svr/external_con.cpp:21-37 | every registered server is told of the end of a verified client, and of no other |
| Driver.CStr | acc_driver/src/connect.cpp:155 | the account name is the longest prefix without a zero byte |
| DriverRuns.TableInEveryRun | acc_driver/src/connect.cpp:138-274 | in every run each session table is the one the callbacks tell: replayed from them alone since the last disconnect; empty unless registered, and registered only while connected |
| DriverRuns.CallbacksInEveryRun | acc_driver/src/connect.cpp:138-274 | in every run, fatal ones included, each callback about a session was made by a registered connection, and is a connect callback exactly if the callbacks before it left that session closed: connect and disconnect alternate and everything else falls between |
| DriverRuns.IdsInEveryRun | acc_driver/src/connect.cpp:384-400 | in every run connection i has id i, every session carries its key and that id, the key is not 0, and looking a session's id up finds it and only it |
| DriverRuns.RegResultsInEveryRun | acc_driver/src/connect.cpp:414-428 | the registration results of a whole run are none, the id, 0, or the id and then 0 |
| DriverRuns.FatalForGood | acc_driver/src/connect.cpp:378-382 | after a fatal error no connection, callback, Init or AddAcc ever succeeds again |
| DriverRuns.SettingsConverge | acc_driver/src/connect.cpp:431-446 | in every run a connected server was last sent the stored settings if and only if the server id is set or settings were given since that server connected |
| DriverRuns.UngreetedGetsNothing | acc_driver/src/connect.cpp:49-66 | a run in which a connected server without id was sent no settings |
| DriverRuns.RegistersFirst | acc_driver/src/connect.cpp:47-66 | in every run each connected server was sent the registration under the present id before anything else |
| DriverRuns.SentMeansGiven | acc_driver/src/connect.cpp:47-66 | without an id, something was sent to a connected server exactly if settings were given since it connected |
| DriverRuns.OnRecvLawful | acc_driver/src/connect.cpp:21-45 | whatever message arrives: no callback before registration, and a callback always fits the session table before and after it |
| DriverRuns.OpenMeans | acc_driver/src/connect.cpp:138-213 | a session is in the replayed table exactly if it was opened by a callback and not closed since |
| DriverRuns.FindsOpenSessions | acc_driver/src/connect.cpp:384-400 | in every run looking up a session finds one exactly if a callback opened it and none closed it since |
| DriverRuns.StepInv | acc_driver/src/connect.cpp:316-456 | every event keeps the driver's invariant |
| DriverBook.AddAccExact | acc_driver/src/connect.cpp:350-376 | succeeds if and only if not fatal, an id is set, no connection has the address and the attempt succeeds; then exactly one new connection, last, all others as before; else nothing changes |
| DriverBook.InitExact | acc_driver/src/connect.cpp:316-348 | when it is allowed, which connections exist after it, the partial failure included, and succeeds if and only if allowed and no attempt failed |
| DriverBook.BookInEveryRun | acc_driver/src/connect.cpp:316-456 | in every run the manager is as a book kept from the events alone says: connections in order with established and registered, id, end, settings, and every registration result and lost server reported, in order |
| DriverBook.RegistrationReads | acc_proto/include/proto.h:236-244 | a registration is read as the id and whether it is a verify server (reader: acc_svr/inner_con.cpp:53-72) |
| DriverBook.Handshake | acc_driver/src/connect.cpp:118-136 | in every run with an id: what is sent first registers that id; answered with it the connection is registered and the user told exactly once, answered 0 everything ends and the user is told 0 |
| DriverBook.SentInEveryRun | acc_driver/src/connect.cpp:47-66 | in every run a server was sent, since its connection was last established, exactly its registration and the settings of then, if there is an id, and each settings given since, pack by pack |
| DriverObjects.Facade.Record | acc_driver/src/connect.cpp:159 | a callback is appended to the record |
| DriverObjects.ADClientCon.constructor | acc_driver/src/connect.cpp:11-19 | a new connection has its id, is not registered and has no sessions |
| DriverObjects.ADClientCon.Greet | acc_driver/src/connect.cpp:47-66 | sends registration and then stored settings, nothing without a server id |
| DriverObjects.ADClientCon.SendSeting | acc_driver/src/connect.cpp:62-64 | sends the serialized settings in the outer message |
| DriverObjects.ADClientCon.OnConnected | acc_driver/src/connect.cpp:47-66 | whole new state of the manager when this connection is established |
| DriverObjects.ADClientCon.OnDisconnected | acc_driver/src/connect.cpp:68-80 | whole new state: registration and sessions gone, the user told |
| DriverObjects.ADClientCon.FindSession | acc_driver/src/connect.cpp:82-90 | the session stored under the id, or none |
| DriverObjects.ADClientCon.HandleRspReg | acc_driver/src/connect.cpp:118-136 | whole new state of the manager: ignored, registered, or everything ended |
| DriverObjects.ADClientCon.HandleCreateSession | acc_driver/src/connect.cpp:138-161 | table and callback after an announcement, repeated and malformed ones included |
| DriverObjects.ADClientCon.HandleMsgForward | acc_driver/src/connect.cpp:163-180 | callback with the session's own record, nothing for an unknown session |
| DriverObjects.ADClientCon.HandleVerifyReq | acc_driver/src/connect.cpp:182-192 | callback under a temporary id |
| DriverObjects.ADClientCon.HandleMsgNtfDiscon | acc_driver/src/connect.cpp:194-213 | callback, then the session is removed |
| DriverObjects.ADClientCon.HandleMsgRspSetActiveSvr | acc_driver/src/connect.cpp:217-234 | callback with group and server of the answer |
| DriverObjects.ADClientCon.HandleMsgRspCacheMsg | acc_driver/src/connect.cpp:235-252 | callback with the flag of the answer |
| DriverObjects.ADClientCon.HandleMsgBroadcastUin | acc_driver/src/connect.cpp:254-274 | one field of one session updated, then the callback |
| DriverObjects.ADClientCon.HandleOther | acc_driver/src/connect.cpp:31-44 | which handler a message of a registered connection goes to |
| DriverObjects.ADClientCon.OnRecv | acc_driver/src/connect.cpp:21-45 | whole new state of the manager for any received bytes |
| DriverObjects.ConMgr.constructor | acc_driver/src/connect.cpp:299-307 | a new manager is the empty one that runs start from |
| DriverObjects.ConMgr.Init | acc_driver/src/connect.cpp:316-348 | result and whole new state; connections made before a failing one stay |
| DriverObjects.ConMgr.NoRepetition | acc_driver/src/connect.cpp:321-331 | true exactly if no address occurs twice |
| DriverObjects.ConMgr.AddAcc | acc_driver/src/connect.cpp:350-376 | result and whole new state; refused when fatal, without id, or for an address in use |
| DriverObjects.ConMgr.SetFatal | acc_driver/src/connect.cpp:378-382 | all connections gone, nothing told |
| DriverObjects.ConMgr.SetRegResult | acc_driver/src/connect.cpp:414-428 | each failure is reported, success only the first time |
| DriverObjects.ConMgr.SetAccSeting | acc_driver/src/connect.cpp:431-446 | stored, and sent to exactly the connected servers |
| DriverObjects.ConMgr.FindSession | acc_driver/src/connect.cpp:384-400 | the session of that connection under that id, none for an unknown connection |
| EndToEnd.ForwardReachesUser | acc_driver/src/connect.cpp:163-180 | a forwarded packet reaches the user unchanged if and only if it has at most 4081 bytes, otherwise nothing happens |
| EndToEnd.SentPack | acc_svr/external_con.cpp:383-452 | a packet is forwarded to a server exactly if it has 4 to 4095 bytes, a command that is neither 0 nor the heartbeat, and a route to that server, which is registered; and as which bytes |
| EndToEnd.PackSays | acc_svr/external_con.cpp:326-334 | byte by byte, whatever is sent for a packet is read as the client id, the packet's first byte as command (sign-extended where char is signed), its length and all of it |
| EndToEnd.NothingForMeans | acc_svr/external_con.cpp:383-452 | some packets send a server nothing exactly if none of them is of that kind |
| EndToEnd.StreamSends | acc_svr/external_con.cpp:383-452 | everything one receive event of a verified client makes the access server send to one server |
| EndToEnd.StreamReachesUser | acc_driver/src/connect.cpp:163-180 | end-to-end transparency: of the packets in a verified client's bytes the user of a server hears exactly the deliverable ones routed to it, whole, in order, as this client's session |
| EndToEnd.HeartBeatStays | acc_svr/external_con.cpp:391-402 | a heartbeat is answered with the configured command alone, no server is sent anything, and the timer runs |
| EndToEnd.SettingsReachServers | acc_driver/src/connect.cpp:431-446 | in every run of a driver with an id, the settings each connected server was last sent are read there as the stored ones, if and only if the text has at most 4067 bytes |
| EndToEnd.FirstPacketAsked | acc_svr/external_con.cpp:336-368 | a client's first packet is put to the verify server's user whole, up to 4081 bytes |
| EndToEnd.AskReachesUser | acc_driver/src/connect.cpp:182-192 | the verify request reaches the user without a session |
| EndToEnd.CtrlArrives | acc_proto/include/proto.h:300-315 | a fixed-size message arrives as the bytes it was sent as, and is accepted as a message of exactly their number and no other |
| EndToEnd.RegAnswerRegisters | acc_driver/src/connect.cpp:118-136 | an answer registers exactly if it repeats the id and none was accepted before; 0 ends everything |
| ClientPause.RunSends | acc_svr/external_con.cpp:383-452 | over any run, what is forwarded to one server is, event by event, what the packets received or flushed come to by the routes and settings of that moment |
| ClientPause.RunHolds | acc_svr/external_con.cpp:272-279 | over any run without a flush a paused client stays paused and its buffer grows by exactly the packets received |
| ClientPause.PauseForwardsTwice | acc_svr/external_con.cpp:272-279 | over any pause: what arrives is forwarded at once and decided again on resume by the routes and settings of then; during the pause nothing is forwarded to a server if and only if no packet was for it, on resume if and only if none held is |
| ClientPause.PauseShown | acc_svr/external_con.cpp:272-279 | a run in which the one packet sent during a pause reaches the server twice |
| Hearing.ForwardHeard | acc_driver/src/connect.cpp:163-180 | a forwarded packet is heard whole if a session is open and it has at most 4081 bytes, else nothing happens |
| Hearing.AskHeard | acc_driver/src/connect.cpp:182-192 | a verify request is heard up to 4081 bytes, with or without a session |
| Hearing.CreateReads | acc_driver/src/connect.cpp:152-158 | the session read from an announcement has the announced id, user id, name, address and port |
| Hearing.AnnouncedName | acc_driver/src/connect.cpp:155 | the name is the announced one up to its first zero byte |
| Hearing.OpenHeard | acc_driver/src/connect.cpp:138-161 | an announcement opens exactly that session, and does nothing if one is open |
| Hearing.CloseHeard | acc_driver/src/connect.cpp:194-213 | a farewell closes an open session and does nothing else |
| Hearing.UinHeard | acc_driver/src/connect.cpp:254-274 | a user id changes that field of an open session |
| Hearing.ActiveHeard | acc_driver/src/connect.cpp:217-234 | server and group of a route answer arrive in their places |
| Hearing.CacheHeard | acc_driver/src/connect.cpp:235-252 | the flag of a cache answer arrives |
| Hearing.ScriptArrives | acc_driver/src/connect.cpp:21-45 | any packs that mean what a script says, one after the other: the user hears the script's callbacks, and only the client's table entry changes |
| Hearing.ScriptWoven | acc_driver/src/connect.cpp:21-45 | the same with any foreign events of the driver in between: of this client the user hears exactly the script's callbacks |
| Hearing.NeighbourForeign | acc_driver/src/connect.cpp:21-45 | packs about another client on the same connection are foreign |
| Hearing.ElsewhereForeign | acc_driver/src/connect.cpp:21-80 | connects, disconnects and messages on other connections, settings and added servers are foreign, unless fatal |
| ClientLife.RecvOutcome | acc_svr/external_con.cpp:241-257 | what a receive event hands over whether or not the seed was read yet |
| ClientLife.RunSendsAll | acc_svr/external_con.cpp:336-368 | over any run, everything sent to one server about a client is, pack by pack and in order, what the run's script says: verify requests, announcements, forwards, answers, user ids |
| ClientLife.RunValid | acc_driver/src/connect.cpp:21-45 | every line of a run's script means to any registered driver what it says |
| ClientLife.LifeReachesUser | acc_driver/src/connect.cpp:138-274 | end-to-end over the whole life of a client, to its farewell: all that a server is sent about it makes the user hear exactly what the script says, with the session record of the moment, and changes nothing in the driver but the client's table entry |
| ClientLife.LifeReachesUserWoven | acc_driver/src/connect.cpp:138-274 | the same with foreign events of the driver in between |
| ClientLife.RunDrifts | acc_driver/src/connect.cpp:254-274 | an open session stays open over any run, and only its user id changes |
| ClientLife.NothingMadeUp | acc_driver/src/connect.cpp:163-192 | over a whole life every text put to the user, verify requests included, is a packet this client had sent, whole and under its own first byte |
| ClientLife.StaysOpen | acc_svr/external_con.cpp:21-37 | a session announced in a life is closed at its end if and only if the client is verified by then and the server registered; else the driver keeps it |
| ClientLife.LeftOpen | acc_svr/external_con.cpp:21-37 | a run that leaves a session open |
| ClientLife.NotAnnouncedAgain | acc_svr/external_con.cpp:58-61 | a verified client is never announced again, to its end (handler: acc_svr/inner_con.cpp:93-97) |
| ClientLife.FarewellStays | acc_svr/external_con.cpp:21-37 | a verified client is announced as gone whatever happened to it |
| ClientLife.ClientLifecycle | acc_driver/src/connect.cpp:138-213 | after any run a waiting client is verified, any run follows, it goes: the verdict announces it once, nothing does again; a registered server is sent the announcement, all the run makes the access server send to it, and the farewell; its user sees the session open, hears exactly the script, user ids and answers included, and sees the session close with its record of that moment; the driver's tables are as before |

## Left out

- Sockets, the event loop, real time, logging and configuration: events, armed flags and logs stand for them.
- The driver's reconnect timer: a connect event may come whenever a connection is down.
- Which verify server is chosen and which servers are registered: parameters of each event.
- Registration on the access server's side (`acc_svr/inner_con.h`): how servers become registered; that one does is an event.
- Answers to requests about a client that is not there (`acc_svr/inner_con.cpp:188-205`): they name no connection.
- The loops over all clients and all servers in `acc_svr/inner_con.cpp`: each client connection and each driver is followed by itself.
- The value of the old-style seed: it is stored and never read.
- The packet handler table mentioned in `acc_svr/external_con.cpp:199-209`: it is not written yet.
- `ExternalSvrCon::OnRecv`, the `MsgPack` overload of `ClientTcpPack2MsgForward`, `SerializeCp`: not used.
- `FindSessionByCid`: the same lookup as `FindSession` in the one connection there must be; the comparisons of addresses and session ids: equality of values stands for them.
- Allocation and freeing of connections, freeing inside a callback, pointers into a receive buffer that outlive it, extra data the user attaches to a session.
- Fields half-written by a parser that then fails: no caller looks at them.
- The textual form of a client's address: its four bytes are kept.
- Driver calls that send a structure as it lies in memory instead of its serialization (`acc_driver/src/acc_driver.cpp:193-209`): what arrives is not determined by the protocol.
- The limit on the number of ids a broadcast may name, checked by its receiver only.
- VerifyRetRoundTrip: messages whose wire size exceeds a 16-bit length parameter are excluded, as their length cannot be passed to the parser; likewise in the Delivered lemmas and SettingsReachServers.
- CStr: an account name without a zero byte is read up to the end of the structure, not beyond it.
- FramerInverse: stated for unsigned char; SignedPackets says which packets a signed char leaves.
