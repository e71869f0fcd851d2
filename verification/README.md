# Chapi: store and hub

A Dafny model of a chat server's room history and of the goroutines around it,
with proofs of what they promise their clients.

- **The store** (`Envelope`, `Lines`, `RingSpec`, `Ring`, `ArchiveSpec`, `Archive`,
  `HistorySpec`, `History`, `Serving`, `TwoTier`, `ClientView`). A room's history is a
  warm in-memory ring in front of an append-only file of signed records. The
  specification is one log of messages numbered 1, 2, 3, ...; ring and file refine it.
  The files `Ring`, `Archive` and `History` are the objects as the source keeps them,
  changed in place and with the source's loops; each method equals a function of the
  matching specification file, and the properties are proved of those functions.
- **The hub** (`RoomRules`, `Client`, `HubModel`, `HubAnswers`, `RoomActor`,
  `RegistryActor`, `Connections`, `HubControl`, `HubSteps`, `HubSafety`, `HubProgress`,
  `HubData`, `HubUpkeep`, `HubMembers`, `HubRuns`, `HubReopen`, `HubFailing`, `HubWalks`,
  `HubQueues`, `HubHanded`, `HubRequests`, `HubJoining`, `HubLeaving`, `HubNotes`,
  `HubPhases`). Sessions, the registry and room instances are a transition system:
  `HubModel.Guard` says which step is possible and `HubModel.Apply` what it does. A
  step is one goroutine's work up to its next channel operation, or one handoff. Which
  step comes next, what a `select` picks, when sweeps and shutdown happen, how many
  bytes of a write land and when the process dies are all free, so a statement about
  every run is one about every schedule. `RoomActor` and `RegistryActor` are the bodies
  of the two goroutines as they are written, with maps, queues and histories changed in
  place. Each registry handler takes the object from one state of the transition system
  (`RegistryActor.Registry.Is`) to the state after the matching step or run of steps; each
  room handler ends with the room the transition system's functions give.
- **The login limiter** (`RateLimiter`), over real time.

`HubRuns` has the main results about the whole server. Beside it: `HubHanded` and
`HubQueues` (the frames that are really put into a client's queue and taken from it, over
any run), `HubFailing` (what a failed write leaves with its clients), `HubWalks` (what a
client is served over several requests), `HubRequests`, `HubJoining` and `HubLeaving` (what
becomes of a client's frames, of a join, and of a close), `HubNotes` (activity in other
rooms), `HubPhases` (the life of a room) and `HubReopen` (rooms that cannot be reopened).
`TwoTier`, `Serving` and `ClientView` have the results about one room's history.

The history variables of the transition system, which message was delivered and what
each client's stream has, are tied to the queues themselves: a stream grows by exactly the
signed frames that were put into the client's queue as part of its subscription
(`HubQueues.StreamIsPushed`), a queue loses nothing but to the write pump
(`HubQueues.QueueConserved`), and nothing signed is in a queue that was not recorded as
delivered (`HubHanded.QueuedIsDelivered`).

What is assumed: the process may die at any point, and a write persists a prefix of its
bytes and reports success only if all of them landed (no loss of completed writes). JSON,
base64, SHA-256 and Ed25519 are the functions of `Envelope.Ops`; `Envelope.Lawful` lists
what is assumed of them (RFC 8259, section 7, for control characters; RFC 8032,
section 5.1, for sign and verify). The codec has to read back only what the program
writes: headers that can be sealed, and envelopes around the bytes of such a header.
Nothing is assumed about other input. `SampleCodec` shows that this can be met. Clock
readings, write outcomes and the choice of a `select` on a closed connection are
parameters.

Two places where the code is not what its comments suggest:

- A room whose every write succeeded can fail to reopen. `publish` bounds the payload but
  not the MIME type, and the scanner refuses a line that fills its buffer of 1 MiB. The
  frame read limit (internal/httpapi/ws.go:64, over a default image ceiling of 2 MiB at
  internal/config/config.go:71) lets such a frame in: it is accepted, sealed, written and
  delivered (`HubReopen.FrameBricks`, `FrameIsWritten`, `WriteBricks`). An open then
  succeeds if and only if every record fits (`HubReopen.OpensIffFits`), and since logs only
  grow, once one does not, no instance opened later ever serves the room
  (`HubReopen.OnlyOldInstancesServe`). Nothing is assumed about line lengths; the affected
  statements say what happens in both cases.
- The comparator of the final sort subtracts as `int`, which orders correctly only while
  sequences are less than 2^63 apart (`Serving.CompareExact`, `ComparesExactlyIfNarrow`).
  The response is ascending before the sort, so a span of fewer than 2^63 sequences is
  served as assembled (`Serving.ServeSortsNothing`). That covers every response if a
  backfill cap is set or the counter is at most 2^63 (`Serving.OrderableWindows`);
  otherwise `History.History.Serve` promises the same messages in some order.

`dafny verify dfyconfig.toml` checks the project.

## Model

| member | source | states |
|---|---|---|
| `HubRuns.NoSequenceReuse` | internal/hub/room.go:287-311 | Over every run with sends, shushes, evictions, partial and failed writes, crashes and restarts: two messages of one room ever handed to any clients under one sequence are the same signed message (equal, except that a copy of an image may have lost its payload). |
| `HubRuns.DeliveredIsArchived` | internal/hub/room.go:287-303 | Whatever reached a client is in the file: the record at its sequence is its archival form. |
| `HubRuns.DeliveredIsNeverLost` | internal/hub/room.go:165-178 | And stays there through any continuation of the run, failed writes and crashes included. |
| `HubRuns.DeliveredStays` | internal/hub/room.go:304-308 | No step of any goroutine takes back a delivery. |
| `HubRuns.ArchiveIsContiguous` | internal/store/archive.go:54-84 | In every reachable state, repair succeeds, only cuts bytes off the end, and the i-th record left opens, has a valid signature, and carries sequence i. |
| `HubRuns.ReplayEqualsLive` | internal/store/archive.go:211-232 | In every phase in which a room serves, right after an append included, recovery from the bytes of its file gives exactly its live counter and withheld set (less the number of a message not yet written), unless a record is longer than the scanner reads. |
| `HubRuns.FailedWriteNeverServes` | internal/hub/room.go:292-303 | A failed append, however much of it landed, sends nobody the message, and the memory that ran ahead of the file is never served or written from again. |
| `HubRuns.FailedNeverServes` | internal/hub/room.go:147-178 | A room whose open or write failed never again joins, answers, delivers, fans out or writes, whatever the rest of the run does. |
| `HubRuns.StreamIsUnbroken` | internal/hub/room.go:180-203 | While its room serves, during a write or a fan-out too, a member whose connection was not closed has the stream: exactly its join response followed by every later message of the room, in order (backfills it asked for aside); a fan-out that has not reached it owes it the newest one, an unfinished answer the rest of the response. `HubHanded.ClientIsHanded` says it of the queue. |
| `HubRuns.StreamIsComplete` | internal/hub/room.go:292-308 | The same by sequence, where the archive read of the join succeeded: a sequence is in the stream iff it lies between the oldest of the response window and the newest handed over and was not withheld when the client joined. One that joined at or above the newest has exactly what came since. |
| `HubRuns.HolderIsMember` | internal/hub/session.go:86-89 | A client that was told it is in a room is in that room's client set, live or not. |
| `HubRuns.HolderIsUpToDate` | internal/hub/room.go:292-308 | So a connected client in a room that serves, its own join answered, has the unbroken stream up to the newest message, or the one before while the fan-out has not reached it. |
| `HubQueues.StepQueue` | internal/hub/client.go:66-73 | Every step of every goroutine, seen from one client's queue: a frame the step has for the client is queued last if the connection is open and there is room, and otherwise leaves it closed, an open one with the slow-consumer code; the pump takes the oldest frame; kills close with their code; and nothing else touches the queue. |
| `HubQueues.QueueConserved` | internal/hub/client.go:41-42 | Over any run, what was queued followed by what the run's steps put there is what the write pump took followed by what is queued now: first in, first out, nothing lost or added. |
| `HubQueues.StreamIsPushed` | internal/hub/room.go:304-308 | Over any run, a client's stream grows by exactly the signed frames put into its queue by its join's answer and by fan-outs. |
| `HubHanded.ClientIsHanded` | internal/hub/room.go:180-203 | For a client still connected, over any run from its join: of the frames its pump took and those still queued, the signed ones of the subscription are the response to its join and then every later message of the room up to the newest handed over, in order and without a hole. |
| `HubHanded.StreamSinceJoin` | internal/hub/room.go:180-192 | Connected or not, from its join on its stream is that response and the signed frames its queue was given for the subscription. |
| `HubHanded.QueuedIsDelivered` | internal/hub/room.go:304-308 | Every signed frame in any queue of any reachable state was recorded as delivered, so what is proved of deliveries holds of the frames. |
| `HubHanded.StepKeepsKnown` | internal/hub/room.go:196-203 | Every step keeps that. |
| `HubHanded.AnswerArrives` | internal/hub/room.go:194-203 | While a client stays connected, the frames its room has put into its queue and those it still owes are the answer: none lost, none repeated, in order. |
| `HubHanded.JoinIsAnswered` | internal/hub/room.go:180-203 | Over any run: a client that asked to join and is still connected when its room is through with the answer was put into its queue the joined frame and then exactly one frame, message or gap, for each sequence it lacked, unless withheld in the window; nothing more if it had the newest. |
| `HubHanded.BackfillIsAnswered` | internal/hub/room.go:313-325 | The same for a backfill. |
| `HubRequests.SubmitExact` | internal/hub/session.go:54-63 | A frame for a room goes to the session's room iff it is in one and the frame names that room or none; otherwise its sender is refused and stays where it is. |
| `HubRequests.BadFrameRefused` | internal/hub/session.go:43-66 | What is no frame, or none of a known kind, is refused, and its sender stays where it is. |
| `HubRequests.SendTaken` | internal/hub/room.go:222-301 | A send taken by its room: the room writes next exactly what was sent, under the trimmed nickname and the room's next number, sealed and genuine; or the sender is refused and no number is spent; which, the frame and the ceilings alone decide. |
| `HubRequests.ShushTaken` | internal/hub/room.go:270-301 | A shush taken by its room: a marker for exactly that sequence is written next, or nothing happens if it is withheld already, or the sender is refused. |
| `HubJoining.JoinBegins` | internal/hub/session.go:73-85 | A request to join sets the session on its way with that name and sequence and three tries, leaving first the room it is in; an invalid name is refused. |
| `HubJoining.StepAims` | internal/hub/session.go:80-98 | Every step of every goroutine leaves a session on its way with its name, its sequence and its tries, but for one try less where the room it was handed had closed; or ends the join. |
| `HubJoining.JoinsTheRightRoom` | internal/hub/session.go:80-89 | In every reachable state, a session that was handed a room was handed one of the name it asked for. |
| `HubJoining.JoinsTakeTheirCourse` | internal/hub/session.go:80-98 | Over every run, a join ends only in a room of the name asked for that confirmed it, or in a refusal, because the name is no room's, the registry had stopped, the room could not be opened, or three rooms in turn had closed on it. |
| `HubJoining.StepGoesBack` | internal/hub/session.go:41-67 | Whatever else a session sends ends where it was: a frame is taken by its room, or refused by the room that failed to open or, after the room closed, by the session; a refusal is queued and changes no room. |
| `HubLeaving.CloseIsFinal` | internal/hub/session.go:32-39 | A session that closes leaves its room, if it is in one, then the registry, and does nothing else; once gone it stays gone. |
| `HubLeaving.StepRecord` | internal/hub/registry.go:117-142 | The registry's record of a client changes with that client's commands alone: a join records the name before it is answered, a leave or add records no room, a remove deletes it. |
| `HubLeaving.RecordsAreExact` | internal/hub/registry.go:117-121 | In every reachable state, until shutdown, the registry has a record of exactly the connections that were added and are not gone. |
| `HubLeaving.GoneIsForgotten` | internal/hub/session.go:32-39 | Nothing is left of a session that is gone: no live room has it as a member or works for it, and until shutdown the registry has no record of it. |
| `HubNotes.NotifyExact` | internal/hub/room.go:309 | After the last send of a fan-out the room notes its own name and the sequence of its newest message, the one fanned out; nothing only once the registry is stopping. |
| `HubNotes.NotesAreTrue` | internal/hub/registry.go:277-285 | In every reachable state, every note queued, being passed on, or in a client's queue names a sequence the named room has assigned and logged. |
| `HubNotes.StepKeepsNotes` | internal/hub/registry.go:149-156 | Every step keeps that. |
| `HubNotes.RoundBegins` | internal/hub/registry.go:149-153 | A note that is taken is to be passed on to exactly the clients recorded elsewhere. |
| `HubNotes.RoundReachesAll` | internal/hub/registry.go:152-156 | Over any run, whoever is to be told of a note is pinged before the registry turns to anything else. |
| `HubNotes.NotToldOfOwnRoom` | internal/hub/registry.go:153 | No client is ever pinged of the room the registry has it in. |
| `HubPhases.StepCourse` | internal/hub/room.go:115-178 | Every step, seen from one room: it opens or gives up, serves one request at a time to its end, and fails in service only by a write, after which it goes over all its members and then returns; others' steps leave it where it is. |
| `HubPhases.FailedOpenNeverKills` | internal/hub/room.go:147-163 | Over any run, a room that failed to open is never in service and closes nobody. |
| `HubPhases.OnlyWritesAreFatal` | internal/hub/room.go:127-144 | Over any run, a room in service stays in service until it returns on the stop token, unless a write of its own fails. |
| `HubPhases.FlushTells` | internal/hub/room.go:152-162 | A room that failed to open answers a waiting join that it could not, taking none of its tries, lets leaves go on, and refuses frames. |
| `HubFailing.FailedStreamStopsShort` | internal/hub/room.go:172-178 | After a failed write, until it is closed, a member has been handed its join response and every later message up to the one before the message that failed, in order, and nothing else. |
| `HubFailing.FailedStreamIsComplete` | internal/hub/room.go:172-178 | The same by sequence. |
| `HubFailing.StepKeepsFailed` | internal/hub/room.go:147-178 | Every step, of other rooms and sessions too, keeps what members of failing rooms have been handed, and keeps them at their room. |
| `HubFailing.WriteFailed` | internal/hub/room.go:292-303 | A write that fails, however much of it landed, leaves every member's stream at the message before. |
| `HubWalks.WalkOverRuns` | internal/store/history.go:136-158 | Walking back through a span over any run takes exactly ceil(n / k) requests and serves each sequence once unless withheld by then, whatever is written between requests and whichever instances serve them, evictions and restarts included; if the records fit the scanner at the end. |
| `HubWalks.ResumeOverRuns` | internal/store/history.go:114-158 | The same for a resume followed by the walk through its gap: every sequence since is served exactly once unless withheld. |
| `HubWalks.SnapsGrow` | internal/store/history.go:52-77 | The memory, file and log found by successive requests to a room along any run are those of one growing log, in agreement each time. |
| `HubWalks.JoinAnswer` | internal/hub/room.go:180-184 | What a join is answered is what that snapshot answers. |
| `HubWalks.BackfillAnswer` | internal/hub/room.go:313-325 | So is the answer to a backfill of a proper span; frame by frame it is spelled out by `HubAnswers.AnswerExact` and `HubHanded.BackfillIsAnswered`. |
| `HubRuns.FailureClosesMembers` | internal/hub/room.go:172-178 | A room that failed returns only after every member's connection was closed. |
| `HubRuns.WithheldAlwaysExplained` | internal/store/history.go:189-205 | In every reachable state each withheld sequence of a response window leads through markers of that window to a marker the response carries. |
| `HubRuns.MarkersAlwaysOK` | internal/hub/room.go:276-284 | In every reachable state each sequence has at most one marker, and it is newer than its target. |
| `HubRuns.QueuesBounded` | internal/hub/client.go:66-73 | In every reachable state no queue is longer than its buffer. |
| `HubRuns.HolderIsRecorded` | internal/hub/registry.go:138-142 | A session that holds or is joining a live room is recorded in it by the registry, whose table has that very instance. |
| `HubRuns.SingleWriterAlways` | internal/hub/registry.go:126-146 | When an instance opens, repairs or appends to its archive, every other instance of that name started so far, swept, evicted or replaced, is through with it until the process restarts. One opened later under the name may touch it. |
| `HubRuns.EvictIsByIdentity` | internal/hub/registry.go:144-146 | The entry an evict command deletes by name is the instance that sent it. |
| `HubRuns.NeverBlocked` | internal/hub/registry.go:267-285 | In every reachable state that is not at rest some goroutine can take a step of its own, none of them a fault of the file system, during shutdown too. |
| `HubRuns.StoppedMeansReturned` | internal/hub/registry.go:201-216 | The registry is done only when every room ever started has returned, swept ones included. |
| `HubRuns.ShutdownReachesAll` | internal/hub/registry.go:192-199 | At shutdown every client the registry has is closed and every live room, swept ones included, has the stop token. |
| `HubRuns.JoinGivesUp` | internal/hub/session.go:10-13 | In every reachable state a join in progress is on one of at most three attempts. |
| `HubRuns.GivenUpStays` | internal/hub/room.go:150-178 | A room that gave up stays given up over every step short of a restart. |
| `HubReopen.OnlyOldInstancesServe` | internal/store/history.go:54-77 | Once a room's log has a record too long for the scanner, no instance that comes into use later ever serves it, whatever the rest of the run brings; after a restart nobody does. |
| `HubReopen.OpensIffFits` | internal/store/archive.go:211-232 | An open that got past repair takes requests iff every record of the room's log fits the scanner. |
| `HubReopen.NeverReopens` | internal/store/archive.go:211-232 | The open of a room whose log does not fit gives up. |
| `HubReopen.NoneComesIntoUse` | internal/store/history.go:54-77 | While such a log is there, no step short of a restart brings an instance into use that was not. |
| `HubReopen.FrameBricks` | internal/hub/room.go:246-261 | A send of an image within the payload ceiling whose MIME type fills the scanner is accepted and sealed to a message whose record does not fit. |
| `HubReopen.FrameIsWritten` | internal/hub/room.go:222-299 | Taken by its room, that frame is what the room writes next. |
| `HubReopen.WriteBricks` | internal/hub/room.go:292-303 | And the write that succeeds leaves a log that does not fit. |
| `HubReopen.StepGrowsLogs` | internal/store/archive.go:133-146 | No step, crash or failed write included, takes a message out of a room's log. |
| `HubProgress.DeadlockFree` | internal/hub/registry.go:192-235 | Whenever any session, room or the registry is at a channel operation (and no room is out of numbers), the guard of some internal step holds that is no fault of the file system. |
| `HubProgress.InternalLowers` | internal/hub/session.go:73-98 | Every internal step lowers a well-founded rank, so the hub cannot run on for ever by itself, retries, room creation and failures included. |
| `HubProgress.Settle` | internal/hub/registry.go:101-162 | From every state there is a run of internal steps alone, with no fault of the file system in it, to one where every session is back with its client, every room waits for requests or has returned, and the registry waits or has stopped. |
| `HubProgress.ShutdownCompletes` | internal/hub/registry.go:192-217 | Once stopping, internal steps alone, none of them a fault, reach a state with the registry stopped, all rooms returned and all sessions released. |
| `HubProgress.SessionAfterLower` | internal/hub/session.go:80-98 | Each move of a session on its own, retries of a join included, leaves it fewer handoffs than before. |
| `HubProgress.RoomMoves` | internal/hub/room.go:115-178 | A room that is neither waiting for requests nor done can step without a fault, or waits only for the registry, which then can. |
| `HubProgress.AtRoomMoves` | internal/hub/room.go:79-110 | A session at its room is taken up, sees the room done, or the room can step; no fault is needed. |
| `HubProgress.WindingMoves` | internal/hub/registry.go:201-216 | While winding down, an unfinished room can step without a fault or the registry can close done. |
| `HubSafety.SingleWriter` | internal/hub/registry.go:164-190 | Once one instance touches its archive, no other instance of the name known then ever does again in the run. |
| `HubSafety.RemovedNeverTouches` | internal/hub/registry.go:184-188 | An instance out of the table never repairs, reads for recovery, or appends to its archive again. |
| `HubSafety.OneAtWork` | internal/hub/room.go:35-39 | Two instances of a name that are both opening or serving a request are the same instance. |
| `HubSafety.ToucherIsTabled` | internal/hub/room.go:115-145 | Only the instance in the table, with the client it works for recorded in it, touches an archive. |
| `HubSafety.RemovedStays` | internal/hub/registry.go:126-136 | No step puts an instance back into the table; names are reopened under new instances. |
| `HubSafety.RoomStepShape` | internal/hub/room.go:112-145 | A step of one room leaves every other room as it was and the registry at what it was doing. |
| `HubSteps.StepKeepsControl` | internal/hub/registry.go:101-162 | Every step of every goroutine keeps the control discipline (pins, workers, members, table, wait group, replies, names, queues). |
| `HubSteps.RunKeepsControl` | internal/hub/registry.go:101-162 | So does every run. |
| `HubSteps.InitControl` | internal/hub/registry.go:81-95 | It holds of the empty hub. |
| `HubSteps.EvictsItself` | internal/hub/room.go:150-178 | A room at work is the instance the table has under its name, and its client is recorded in it. |
| `HubSteps.SessionStepKeeps` | internal/hub/session.go:33-98 | Beginning a join, a frame or a close, and every way of learning that a room or the registry is gone, keeps the discipline. |
| `HubSteps.CommandKeeps` | internal/hub/registry.go:115-147 | Add, leave, remove and join commands keep it; a join that creates a room finds no session pinned to that name. |
| `HubSteps.JoinKeeps` | internal/hub/room.go:79-92 | The handoff of a join to its room keeps it. |
| `HubSteps.FrameKeeps` | internal/hub/room.go:104-110 | The handoff of a frame to its room keeps it. |
| `HubSteps.LeaveKeeps` | internal/hub/room.go:96-101 | Leaving keeps it: the room forgets the member before the session drops its pin. |
| `HubSteps.AnswerKeeps` | internal/hub/room.go:132-133 | Delivering an answer and confirming the join keeps it. |
| `HubSteps.EvictKeeps` | internal/hub/registry.go:269-275 | A failing room taking itself out of the table keeps it. |
| `HubSteps.FlushKeeps` | internal/hub/room.go:150-163 | Answering the sessions queued at a room that failed to open keeps it. |
| `HubSteps.FinishKeeps` | internal/hub/room.go:115-116 | A room returning keeps it, the wait group count included. |
| `HubSteps.SweepKeeps` | internal/hub/registry.go:169-190 | The sweep keeps it: it takes only rooms nobody holds or is joining. |
| `HubSteps.ShutdownKeeps` | internal/hub/registry.go:192-199 | Stopping all rooms and killing all clients keeps it. |
| `HubSteps.NoneUnfinished` | internal/hub/registry.go:203-213 | A stopped registry has no unfinished room. |
| `HubControl.SessionMoveKeeps` | internal/hub/session.go:33-39 | A session that moves alone and keeps its pin, or drops one on a dead room, keeps pins, workers and members. |
| `HubControl.RoomMoveKeeps` | internal/hub/room.go:112-145 | A room that moves alone without taking on members or coming back to life keeps the discipline about it. |
| `HubMembers.StepKeepsMembership` | internal/hub/session.go:73-98 | Every step keeps: who holds a room is a member of it, and who a failed room is through with is closed. |
| `HubMembers.RunKeepsMembership` | internal/hub/session.go:73-98 | So does every run. |
| `HubMembers.JoinHolders` | internal/hub/room.go:180-182 | A joining client is in the client set before it is answered. |
| `HubMembers.LeaveHolders` | internal/hub/session.go:33-39 | A leaving client gives up the room as it leaves the client set. |
| `HubMembers.RoomStepCloses` | internal/hub/client.go:53-58 | No room step reopens a closed connection. |
| `HubUpkeep.StepKeepsSound` | internal/hub/room.go:115-145 | Every step keeps files, memories, deliveries, pending answers and client streams in agreement with the logs. |
| `HubUpkeep.RunKeepsSound` | internal/hub/room.go:115-145 | So does every run. |
| `HubUpkeep.InitSound` | internal/hub/room.go:58-73 | They agree in the empty hub. |
| `HubUpkeep.RepairData` | internal/store/archive.go:54-84 | Repairing on open leaves the file holding exactly the log, whatever a crash tore. |
| `HubUpkeep.RecoverData` | internal/store/history.go:54-77 | Recovery on open gives a memory that agrees with the log, or the room gives up. |
| `HubUpkeep.FrameData` | internal/hub/room.go:205-285 | A frame leaves the room answering from the log, or about to write the next message of it. |
| `HubUpkeep.WriteData` | internal/hub/room.go:292-303 | A write that stops anywhere leaves the old log with a torn tail, or the new log in file and memory. |
| `HubUpkeep.FanData` | internal/hub/room.go:304-308 | One send of the fan-out keeps files, memories, deliveries and streams in agreement with the logs. What it does to the queue is `HubQueues.StepQueue`. |
| `HubUpkeep.JoinData` | internal/hub/room.go:180-192 | A join starts a stream with the response computed over the log at that moment. |
| `HubUpkeep.DeliverFrameData` | internal/hub/room.go:194-203 | One send of an answer keeps them too: a signed frame is a message of the log. What it does to the queue is `HubQueues.StepQueue`. |
| `HubUpkeep.WrittenFile` | internal/store/history.go:96-109 | After an append that landed in full, file, memory and log agree with the message added; otherwise the file still holds the old log. |
| `HubUpkeep.AtWorkOwns` | internal/hub/room.go:35-39 | A room at work is the only table entry of its name, and its memory is in step with its file. |
| `HubUpkeep.HandQueue` | internal/hub/client.go:66-73 | A send that leaves the connection open was accepted. |
| `HubData.CastFollows` | internal/hub/room.go:222-299 | What a frame makes a room broadcast always seals, is numbered next, and as a marker has an assigned target not withheld before. |
| `HubData.SinceLogged` | internal/store/history.go:119-134 | Every message of a join response is the log's message of its sequence, whole or archival. |
| `HubData.RangeLogged` | internal/store/history.go:138-158 | The same for a requested span. |
| `HubData.AnswerSigned` | internal/hub/room.go:194-203 | The signed frames of an answer are the response's messages, in order. |
| `HubAnswers.AnswerExact` | internal/hub/room.go:184-203 | An answer has |gaps| + |msgs| frames: frame i is the note of gap i, frame |gaps| + j is message j; a failed read is answered with exactly one refusal. |
| `HubAnswers.PartitionTold` | internal/hub/room.go:194-203 | A response that accounts for each sequence of a span once becomes frames that tell of each exactly once, as a message or as part of a gap, but for those withheld in the window, and of no other. |
| `HubAnswers.JoinTold` | internal/hub/room.go:180-192 | So for the frames a join is answered with, for every ring, archive and since; first comes the joined frame with the newest sequence, and for a client that has the newest nothing follows. |
| `HubAnswers.BackfillTold` | internal/hub/room.go:313-325 | And for those of a backfill, clipped to what was assigned; one refusal for no span or a failed read. |
| `HubData.HandleInStep` | internal/hub/room.go:207-220 | Handling a frame leaves memory in step with file and log. |
| `RoomActor.SendOne` | internal/hub/client.go:66-73 | A send either queues the frame or leaves the connection closed, never neither, never both. |
| `RoomActor.FanOut` | internal/hub/room.go:304-308 | The fan-out loop does that to every client of the room. |
| `RoomActor.FanOutIsSteps` | internal/hub/room.go:304-308 | Whatever queues that loop leaves, in whatever order it ran: a run of fan-out steps of the transition system ends in exactly those queues and changes nothing else but the room's phase. |
| `RoomActor.SendAll` | internal/hub/room.go:196-203 | The connection goes through exactly that series of sends, in order, closed or not, each as its select turned out. |
| `RoomActor.AllSentOpen` | internal/hub/client.go:60-73 | A connection that is open after a series of sends was open before, and its queue is the old one followed by all of the frames, in order. |
| `RoomActor.AnswerIsSteps` | internal/hub/room.go:194-203 | Whatever queue such a series leaves: the steps with which the transition system delivers the same frames end in exactly that queue, and change no other queue and nothing else but the room's phase. |
| `RoomActor.Deliver` | internal/hub/room.go:196-203 | The connection is sent exactly the answer: as `HubAnswers.AnswerExact` spells out, one gap frame for each gap, then one frame for each message, in order. |
| `RoomActor.Reply` | internal/hub/room.go:184-191 | A failed archive read is answered with one refusal, a response with those frames, and nothing else is sent. |
| `RoomActor.Room.constructor` | internal/hub/room.go:58-73 | A new room has no clients. |
| `RoomActor.Room.Join` | internal/hub/room.go:180-192 | Subscribes the client and sends it the joined frame, then the answer to everything newer as the transition system computes it, and nothing else; `HubAnswers.JoinTold` says which frames that is. |
| `RoomActor.Room.Leave` | internal/hub/room.go:135-136 | The room ends up as the transition system's room after the leave is taken: that client is out of the set the fan-out and the kills go over, and nothing else changed. |
| `RoomActor.Room.Backfill` | internal/hub/room.go:313-325 | Sends one refusal for from = 0 or to < from; otherwise exactly the answer to the span, whose frames `HubAnswers.BackfillTold` gives. |
| `RoomActor.Room.Broadcast` | internal/hub/room.go:292-311 | Numbers, seals and archives before any send; then every client of the room is sent the message and nothing else; a failed write is fatal and sends nobody anything; a refusal by the sealer goes to the sender alone. |
| `RoomActor.Room.NextByDraft` | internal/hub/room.go:222-285 | The transition system's next phase for a send or shush, by what the frame asks to broadcast. |
| `RoomActor.Room.NextByBackfill` | internal/hub/room.go:313-325 | The same for a backfill. |
| `RoomActor.Room.HandleFrame` | internal/hub/room.go:207-220 | One frame handled to the end leaves memory, file, every queue and the result as the transition system's steps for it: the message to each client, or the answer to the sender alone, or nothing. |
| `RegistryActor.Registry.constructor` | internal/hub/registry.go:81-104 | A new registry is that of the empty hub. |
| `RegistryActor.Registry.JoinRoom` | internal/hub/registry.go:126-142 | Ends as the registry of the state after the session's join command, and answers with exactly the instance that state hands the session; a new one iff the state had no such instance. |
| `RegistryActor.Registry.PutNowhere` | internal/hub/registry.go:117-124 | For a new connection and for one that left its room alike: ends as the registry of the state after that session's command. |
| `RegistryActor.Registry.RemoveClient` | internal/hub/registry.go:120-121 | Ends as the registry of the state after the session's remove command, which has no record of the client: no later note, sweep or shutdown counts it. |
| `RegistryActor.Registry.EvictRoom` | internal/hub/registry.go:144-146 | Ends as the registry of the state after the failing room's evict command, whose table and idle times no longer have the name. |
| `RegistryActor.Registry.Note` | internal/hub/registry.go:149-156 | Every client elsewhere is sent the ping, or closed; clients of the room are left alone; as a run of the transition system that takes the note and then pings one by one. |
| `RegistryActor.Registry.Sweep` | internal/hub/registry.go:169-190 | Exactly the rooms that are unoccupied and idle long enough leave the table and are told to stop, none if sweeping is off; as a run of that many sweep steps, ending as the registry of its last state. |
| `RegistryActor.Registry.Occupancy` | internal/hub/registry.go:173-178 | The set of names some client is recorded in. |
| `RegistryActor.Registry.Shutdown` | internal/hub/registry.go:192-199 | Ends as the registry of the transition system's state after shutdown begins: every room in the table told to stop, every client killed, an earlier close code kept. |
| `RegistryActor.SweepIsSteps` | internal/hub/registry.go:180-189 | A pass over any unoccupied rooms is that many steps of the transition system: it takes exactly those names out of the table, gives exactly their rooms the stop token, and changes nothing else. |
| `Client.SendExact` | internal/hub/client.go:60-73 | The queue keeps its bound and order; an open connection takes the frame exactly if there is room and is otherwise closed with the code for slow consumers; a close code never changes. |
| `Client.KillExact` | internal/hub/client.go:51-58 | A kill closes an open connection with its code and leaves the queue, and an earlier code, alone. |
| `Client.Client.constructor` | internal/hub/client.go:30-39 | An empty queue with a buffer of at least one. |
| `Client.Client.KillWith` | internal/hub/client.go:53-58 | The first kill decides the code. |
| `Client.Client.SendTo` | internal/hub/client.go:66-73 | Queues, or closes the connection when full; on a closed one either case of the select. |
| `RoomRules.CleanNickExact` | internal/hub/room.go:327-345 | For every nickname, if n is what is left of it without the white space at both ends: it is accepted as n itself iff n is nonempty, at most 32 bytes and free of control characters, and refused otherwise. |
| `RoomRules.NickTrims` | internal/hub/room.go:328 | Every nickname has such an n. |
| `RoomRules.RoomNameExact` | internal/store/history.go:235-250 | A room name is accepted iff it is 1 to 64 characters, each one of the 38 spelled out. |
| `RoomRules.PublishExact` | internal/hub/room.go:222-268 | A send is broadcast iff its trimmed nickname n is good, its kind may be sent, its payload is nonempty and within that kind's ceiling, and an image has a MIME type; the draft has the client's payload and a header of the room, n, the kind, an image's own MIME type and size, and nothing else. |
| `RoomRules.ShushExact` | internal/hub/room.go:270-285 | A shush is refused iff the trimmed nickname n is not good or the target is unassigned, ignored iff it is withheld already, and otherwise drafted as a marker for exactly that target under n. |
| `RoomRules.PublishSeals` | internal/hub/room.go:222-268 | Sealing never refuses what publish lets through, so no sequence is spent without a record. |
| `RoomRules.ShushSeals` | internal/hub/room.go:270-285 | The same for markers; a marker's target is assigned and not withheld yet. |
| `Envelope.SealExact` | internal/envelope/envelope.go:208-232 | Sealing succeeds exactly on a valid header with a payload; the message has the caller's fields, the server's version, key id and the payload's hash, its own signature, and is genuine and not stripped. |
| `Envelope.GenuineOpens` | internal/envelope/envelope.go:148-165 | A sealed message and its archival form both open to themselves; stripping twice is stripping once. |
| `Envelope.OpenedIsAuthentic` | internal/envelope/envelope.go:257-300 | Bytes open to a message iff they decode to an envelope whose signature holds over its own header bytes under the key its key id resolves to, whose header parses to the message's, and whose payload matches its hash or is a stripped image's. |
| `Envelope.VerifiedBeforeParsed` | internal/envelope/envelope.go:248-287 | Under a bad signature the answer is the same whatever the header parser would do. |
| `Envelope.SwappedPayloadRefused` | internal/envelope/envelope.go:294-297 | A swapped payload is refused, unless it is an image's archival placeholder. |
| `Envelope.ShushRoundTrip` | internal/envelope/shush.go:20-38 | A marker's payload reads back as its target; sequence zero is none. |
| `SampleCodec.SampleIsLawful` | internal/envelope/envelope.go:121-135 | A codec and signer that meet every assumption made of the libraries exist, whose decoders yield only what a header that can be sealed encodes to. |
| `Ring.Deque.constructor` | internal/store/ring.go:10-13 | An empty deque. |
| `Ring.Deque.Push` | internal/store/ring.go:17 | Appends at the back, slice at most twice the live count. |
| `Ring.Deque.Front` | internal/store/ring.go:19-24 | The oldest element, if any. |
| `Ring.Deque.Pop` | internal/store/ring.go:26-40 | Plain FIFO pop; slice at most twice the live count; all elements ever copied by compaction number at most the pops. |
| `Ring.Deque.All` | internal/store/ring.go:42 | The live elements in order. |
| `Ring.Ring.constructor` | internal/store/ring.go:61-63 | Empty; negative limits become zero. |
| `Ring.Ring.Append` | internal/store/ring.go:67-80 | After any appends the text deque is the last maxText non-images and the image deque the longest suffix of all images within the budget, imageBytes their sum. |
| `Ring.Ring.PushImage` | internal/store/ring.go:68-75 | Evicts images oldest-first until the payloads fit. |
| `Ring.Ring.PushText` | internal/store/ring.go:76-79 | Keeps the last maxText texts. |
| `Ring.Ring.Since` | internal/store/ring.go:87-113 | Returns the merge of both windows above since. |
| `Ring.MergeFrom` | internal/store/ring.go:95-112 | The index-based merge loop. |
| `Ring.SeekIndex` | internal/store/ring.go:115-121 | The first index past since. |
| `RingSpec.FittingIsLongest` | internal/store/ring.go:69-74 | The image window is a suffix within the budget and no longer suffix is. |
| `RingSpec.FittingAppend` | internal/store/ring.go:69-74 | Evicting as messages arrive ends at the same window as evicting from the whole history at once. |
| `RingSpec.TextWindowAppend` | internal/store/ring.go:76-79 | One append to the text window. |
| `RingSpec.TextWindowIsNewest` | internal/store/ring.go:76-79 | The text window is the last min(maxText, count) texts ever appended. |
| `RingSpec.ImageWindowAppend` | internal/store/ring.go:68-75 | One append to the image window. |
| `RingSpec.RingSinceExact` | internal/store/ring.go:82-113 | With increasing sequences, Since is exactly the retained messages above since, in strictly increasing order. |
| `Lines.LastLineExact` | internal/store/archive.go:86-131 | The backward search finds exactly the start of the file's last line. |
| `Lines.SplitJoin` | internal/store/archive.go:48-53 | Complete lines and a torn one split back into just those. |
| `Archive.LastNewline` | internal/store/archive.go:112-119 | The last newline of a chunk, if it has one. |
| `Archive.LastLine` | internal/store/archive.go:88-131 | The chunked search returns the final line and its offset, for every file and chunk alignment. |
| `Archive.Archive.RepairTail` | internal/store/archive.go:54-84 | The loop truncates the file to the specified repair and reports success as it does. |
| `Archive.Archive.Append` | internal/store/archive.go:138-146 | A write persists a prefix of the record; success means all of it. |
| `Archive.Archive.Recover` | internal/store/archive.go:218-232 | The recovery scan over the bytes. |
| `Archive.Archive.Range` | internal/store/archive.go:238-260 | The range scan over the bytes, stopping at the first record past the end. |
| `ArchiveSpec.RepairExact` | internal/store/archive.go:54-84 | For every file: bad trailing lines go, one an attempt, never a byte before them; success iff there were fewer than eight. |
| `ArchiveSpec.TornTailRepair` | internal/store/archive.go:48-53 | Complete records plus any part of one more: repair leaves exactly the complete records. |
| `ArchiveSpec.BadLineIsCut` | internal/store/archive.go:74-83 | A last line is cut if it is torn and also if it is terminated but not JSON; the next attempt looks at what was before it. |
| `ArchiveSpec.LineReads` | internal/store/archive.go:148-197 | Scanning, peeking and opening a written line give back what was sealed; it is too long for the scanner exactly if its wire form is. |
| `ArchiveSpec.RepairLog` | internal/store/archive.go:54-84 | Opening a log's file with a torn tail gives back the log's file. |
| `ArchiveSpec.RecoverLog` | internal/store/archive.go:211-232 | Recovery of a log's file gives its length and its markers' targets; it fails iff some record is too long. |
| `ArchiveSpec.RangeLog` | internal/store/archive.go:234-260 | A range read is the archival form of exactly the records asked for; stopping early loses none. |
| `ArchiveSpec.RecoverExact` | internal/store/archive.go:178-232 | For every file, whatever is in it: recovery fails iff some line is too long to scan; otherwise it skips what does not parse and yields the greatest sequence of the rest and exactly the targets of its markers. |
| `ArchiveSpec.RangeExact` | internal/store/archive.go:178-260 | For every file, whatever is in it: a range read looks at the lines before the first record past its end, fails iff one of those is too long to scan, and otherwise returns exactly the messages of the span among them that verify. |
| `History.History.constructor` | internal/store/history.go:70-76 | A fresh memory: empty ring, recovered counter and withheld set. |
| `History.History.NextSeq` | internal/store/history.go:86-89 | Advances the counter by one. |
| `History.History.Append` | internal/store/history.go:96-109 | Memory takes the message even if the write fails; the file gets the part of the record that landed. |
| `History.History.MissingAny` | internal/store/history.go:213-220 | Whether some sequence of the span is neither found nor withheld. |
| `History.History.Serve` | internal/store/history.go:162-211 | The assembled and sorted span, from the ring and, only if needed, the archive: exactly the specified response where it spans fewer than 2^63 sequences, the same up to the order of its messages otherwise. |
| `History.History.Assemble` | internal/store/history.go:186-205 | The serving loop. |
| `History.SortMessages` | internal/store/history.go:207-209 | Returns a permutation, sorted by the comparator where that is an order. |
| `History.History.Since` | internal/store/history.go:119-134 | Everything newer, capped to the newest window and sorted: the specified response, up to order only where no cap is set and the counter is beyond 2^63; no uint64 operation wraps. |
| `History.History.Range` | internal/store/history.go:138-158 | The clipped span, capped to its oldest window and sorted: the specified response, with the same proviso; no uint64 operation wraps. |
| `History.OpenHistory` | internal/store/history.go:54-77 | The file is repaired even if the open fails; the open succeeds exactly if repair and scan do. |
| `Serving.ServePartition` | internal/store/history.go:186-205 | Whatever ring and archive hold: messages are exactly the found and not withheld, gaps exactly the rest, as maximal ascending runs. |
| `Serving.SincePartition` | internal/store/history.go:119-134 | For every ring, archive, withheld set and since: each newer sequence is in exactly one of messages, gaps, and the withheld of the window, and nothing else is; the window is all of them or the newest as many as the cap; a positive cap is never exceeded. A client at or above the newest gets no message and no gap. |
| `Serving.RangePartition` | internal/store/history.go:138-158 | The same for an explicit span, clipped to what was assigned, with the window at its oldest end; a span that has nothing assigned gets no message and no gap. |
| `Serving.SinceByWindow` | internal/store/history.go:123-133 | Since is its window plus at most one truncation gap. |
| `Serving.RangeByWindow` | internal/store/history.go:149-157 | Range is its window plus at most one truncation gap. |
| `Serving.CompareExact` | internal/store/history.go:207-209 | The comparator's wrapped difference orders as the sequences do iff they are less than 2^63 apart. |
| `Serving.SortIsIdentity` | internal/store/history.go:207-209 | A sort by the comparator, whatever its algorithm, returns an ascending response unchanged if its sequences are less than 2^63 apart. |
| `Serving.ComparesExactlyIfNarrow` | internal/store/history.go:207-209 | The comparator orders a response by sequence iff its sequences are less than 2^63 apart. |
| `Serving.ServeSortsNothing` | internal/store/history.go:207-211 | So the sort at the end of a served span of fewer than 2^63 sequences returns it as assembled, for any ring and archive. |
| `Serving.SkipIsHarmless` | internal/store/history.go:170-184 | Skipping the archive when nothing is missing never changes the answer, whatever its records are. |
| `TwoTier.AppendKeeps` | internal/store/history.go:91-109 | A complete append extends file, memory and log together. |
| `TwoTier.PartialWrite` | internal/store/archive.go:133-146 | A write that stops anywhere leaves the old log with a torn tail or the new log. |
| `TwoTier.OpenRecovers` | internal/store/history.go:52-77 | Opening after any crash recovers exactly the log; it fails iff some record is too long for the scanner. |
| `TwoTier.ReplayIsLive` | internal/store/archive.go:211-232 | While memory agrees with the file, replay gives the live counter and withheld set. |
| `TwoTier.LongMimeDoesNotFit` | internal/hub/room.go:257-261 | A sealed image whose unbounded MIME type fills the scanner has a record that does not fit, and a log of it does not reopen. |
| `TwoTier.LookupExact` | internal/store/history.go:162-184 | Before placing, everything of the span that is not withheld is found: whole if the ring retains it, in archival form otherwise. |
| `TwoTier.ServeRefines` | internal/store/history.go:160-205 | A span before its sort (which `History.History.Serve` adds) is exactly the log's messages that are not withheld, whole if the ring retains them and archival otherwise, without gaps. |
| `TwoTier.SinceRefines` | internal/store/history.go:114-134 | A rejoin is the newest window of the log above since and the one gap cut off. |
| `TwoTier.RangeRefines` | internal/store/history.go:136-158 | A span request is the oldest window of the span and the one gap cut off. |
| `ClientView.CallsIsCeiling` | internal/store/history.go:150-154 | The number of requests a walk takes is the ceiling of n / k. |
| `ClientView.WalkIsComplete` | internal/store/history.go:136-158 | Walking back through a gap takes exactly ceil(n / k) requests and serves each sequence once, whatever is appended meanwhile. |
| `ClientView.ResumeIsComplete` | internal/store/history.go:114-158 | A resume followed by the walk through its gap serves every sequence since exactly once, unless withheld. |
| `ClientView.MarkersAppend` | internal/hub/room.go:276-284 | The room's shush rule keeps one marker per target, newer than it. |
| `ClientView.MarkerOf` | internal/store/history.go:103-107 | A sequence is withheld exactly if some message of the log is a marker for it. |
| `ClientView.ChainOf` | internal/hub/room.go:276-284 | Every sequence leads through finitely many markers to one that is not withheld. |
| `ClientView.WithheldIsExplained` | internal/store/history.go:189-205 | For a withheld sequence of a response window that chain stays in the window and ends at a served marker. |
| `RateLimiter.MakeLimits` | internal/auth/ratelimit.go:33-49 | Burst is the one given or one, refill fills it in the window (a minute if none is given), and idle is four windows. |
| `RateLimiter.Limiter.constructor` | internal/auth/ratelimit.go:33-49 | A limiter with no buckets. |
| `RateLimiter.Limiter.Allow` | internal/auth/ratelimit.go:52-73 | One call: state and answer are those of the specified step, whose answers `GrantedIffConforms` characterises. |
| `RateLimiter.Limiter.SweepIdle` | internal/auth/ratelimit.go:77-87 | The deletion loop drops exactly the idle buckets, at most once per idle period. |
| `RateLimiter.RunSound` | internal/auth/ratelimit.go:59-72 | Buckets stay between 0 and burst over every run. |
| `RateLimiter.GrantedWithinLevel` | internal/auth/ratelimit.go:64-72 | What a run of calls grants a key is at most its level at the first call plus the refill. |
| `RateLimiter.RateBound` | internal/auth/ratelimit.go:31-32 | Over any stretch of any run, sweeps included, a key is granted at most burst plus refill times the length of the stretch. |
| `RateLimiter.GrantedIffConforms` | internal/auth/ratelimit.go:52-73 | The other direction too: in every run from a fresh limiter, sweeps included, a call is granted if and only if, over every stretch from an earlier call for its key, the grants so far and this one stay within burst plus refill. Stated of the calls and their answers alone. |
| `RateLimiter.FirstBurst` | internal/auth/ratelimit.go:31-32 | The first calls for a key, as many as the burst, are all granted, however fast they come. |
| `RateLimiter.SpacedAllGranted` | internal/auth/ratelimit.go:64-72 | A key whose calls are at least one refill apart is never refused. |
| `RateLimiter.OnlyRecentKept` | internal/auth/ratelimit.go:75-87 | After every call of every run the limiter has buckets only for keys used within the last two idle periods. |
| `RateLimiter.SweepKeepsLevels` | internal/auth/ratelimit.go:75-76 | Dropping an idle bucket changes no key's level. |
| `RateLimiter.SweepInvisible` | internal/auth/ratelimit.go:75-87 | Every call of every run is answered as by a limiter that never sweeps. |
| `RateLimiter.FreshSweepInvisible` | internal/auth/ratelimit.go:33-87 | In particular from the moment a limiter is made. |

## Left out

- The hub's channels are modelled by the step relation, not by goroutines that block: sessions in particular appear only there, and `RoomActor` and `RegistryActor` handle one request at a time.
- A room's pushes into its reply channels are one step with the send before them: a session may learn the outcome later, never earlier.
- A join or frame is taken up only while the room's counter is at least two below 2^64; `HubProgress.Settle` names that case, nothing is said beyond it.
- The registry can keep a client recorded in a room it failed to enter; only the direction from holding a room to being recorded is claimed.
- Client streams are claimed up to the moment the connection is closed; afterwards a send may or may not still queue.
- Read errors of the file system appear as a failed open (`HubModel.OpenFails`); a read that fails while a room is serving is modelled only for a line that is too long.
- Loss of completed writes on power failure, file permissions, and directory creation are not modelled.
- The listing of rooms, the static files, the HTTP and websocket layers, configuration, tokens and key rotation are not modelled; bad frames, unknown frame types and room listings are one step that queues an answer.
- The transition system answers with the specification functions, which leave out the final sort: exact while `Serving.Orderable` holds.
- HubWalks.WalkOverRuns: assumes that the room's records fit the scanner when the walk ends; otherwise a request may be answered with an error.
- Strings are sequences of characters, so the checks for invalid UTF-8 have no counterpart.
- Unforgeability is not claimed: a signature is whatever the assumed key accepts.
- The limiter uses exact real arithmetic and a clock that never runs backwards.
- Ring.Deque: the amortised cost is counted in elements moved by compaction; the cost of growing the slice is not counted.
