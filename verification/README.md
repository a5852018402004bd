# A verified model of the zatch session daemon

The project models, in Dafny, the part of the terminal-session daemon that decides which bytes
reach whom: the event loop with its clients, the scrollback ring and its resumable replay, the
ten-byte packet protocol with the push and attach clients, the two rolling logs, the backward
scan behind `tail`, and `rm -a`.

`dafny verify dfyconfig.toml` checks everything.

## How the model is built

The system calls (`select`, `accept`, `read`, `write`, `close`, `kill`) are methods of the class
`Os` (`Kernel.dfy`). Each one picks its outcome freely among those the kernel may give: a read or
write moves any number of bytes, or fails with EINTR, EAGAIN or another error; `accept` hands out
any descriptor number that is not in use; `select` reports any subset of what it was asked about,
and may only be asked about open descriptors. `Kernel` is the bookkeeping on the other side: per
connection what has been sent and what is still to be read, how often each descriptor number was
handed out and closed, what went to the terminal and what came from it. `Os` also keeps a trace of
every select, accept, terminal read and write with its answer, so that a contract can say not only what
a method did but that it did all there was to do: `Trace` and `Pass` (`Passes.dfy`) collect it for a pass.

`SessionDaemon` (`Daemon.dfy`) is a class with the source's fields, and its methods update them in
place, loop by loop. Every method hands back, as ghost output, the *steps* it took. `World`,
`Event` and `Apply` (`DaemonModel.dfy`) say what a step does to the state; each method is proved to
have done exactly its steps. The theorems about whole runs are then about sequences of steps, so
they hold of every run the class can make:

| file | about |
|---|---|
| `Scrollback.dfy`, `Replay.dfy` | the ring, the replay cursor, the exact overwrite bound |
| `Protocol.dfy`, `Pipeline.dfy` | packets, framing of streams, what the daemon reads and types |
| `DaemonModel.dfy`, `DaemonSafety.dfy` | steps, and the invariant every step keeps |
| `Batch.dfy`, `FanOut.dfy`, `Turns.dfy` | one packet batch, one fan-out, one turn of the loop |
| `Info.dfy`, `ChildControl.dfy` | what Info is answered, and what the child is sent |
| `Passes.dfy` | a pass: a turn against the system calls it made |
| `Daemon.dfy` | the daemon itself |
| `ClientView.dfy`, `Attachment.dfy`, `Delivery.dfy`, `Episodes.dfy`, `Mixing.dfy` | what one client sees of a run |
| `LogAgreement.dfy`, `Logs.dfy`, `Files.dfy` | the session log and the application log |
| `ClientSession.dfy` | `push`, `attach` and the interactive client |
| `TailScan.dfy`, `RemoveAll.dfy` | `tail` and `rm -a` |

## Where the code and its comments differ

The model follows the code.

* **Attach during a replay.** The comment at `src/session_daemon.rs:497-501` wants old and new
  output never to mix. `handle_attach` resets no pending replay and does not look at `attached`,
  so they can: `Attachment.AttachGuardIsExact` gives the exact condition on the packet and the
  client under which they do not.
* **Detach during a replay.** `handle_detach` leaves a pending replay pending, and its end attaches
  the client again: a Detach is final exactly when none is pending
  (`Attachment.DetachIsFinalOnlyWithoutReplay`). `Mixing.SuspendInMidReplayMixes` is a run of a
  fresh daemon in which the shipped client, suspended in mid-replay and resumed, is sent old output
  after newer live output.
* **EAGAIN inside a packet.** `read_from` is documented as "retry later" on EAGAIN
  (`src/protocol.rs:122`), but the bytes read so far are dropped and the stream loses its framing,
  unless there were none: `Protocol.GivingUpKeepsFramingOnlyAtBoundary`.
* **A slow client.** The overwrite bound of the ring is exact: `k` bytes of new output with `n`
  bytes still to replay are harmless if and only if `k + n` is at most the ring size, in one piece
  (`ScrollbackRing.OverwriteBoundIsExact`) or in chunks (`OverwriteBoundIsExactInChunks`). Nothing in
  the daemon enforces it, so the delivery theorems have it as a condition on the run;
  `Mixing.LateReplaySendsNewBytes` shows what happens without it.
* **EINTR on a fan-out write** is not retried as elsewhere. `Daemon.SessionDaemon.SendToClients` says
  exactly who loses the connection: those to whom a write was answered by neither the whole chunk nor
  EAGAIN, so EINTR is enough.
* **`find_tail_start`** does not return the offset after the `nlines`th newline from the end, as its
  comment says (`src/util.rs:161-164`), but the one after the newline before that. The two agree
  exactly for texts with fewer than `nlines` newlines (`TailScan.NthLineFeedOnlyForShortTexts`), and
  differ for a file of one empty line (`TailScan.NthLineFeedIsNotTheStart`).
* **A size limit of 0** makes `SessionLog::open` prune nothing: `Logs.RotatedIsLast`.
* **`rm -a` and names ending in `.log`.** Whether a live session so named is kept whatever the order of
  the directory, whether the order matters at all, and whether a second run is idle, have exact
  conditions on what the first pass leaves: `RemoveAll.LiveSessionNamedLikeALog`,
  `RemoveAll.TwoPasses` and `RemoveAll.SecondRunIsIdle`.

## Model

| member | source | states |
|---|---|---|
| `ScrollbackRing.Scrollback.constructor` | src/scrollback.rs:18-24 | A new ring is well formed, 128 KiB in size, and holds nothing. |
| `ScrollbackRing.Scrollback.Append` | src/scrollback.rs:32-57 | Whatever the size of `data` and wherever the write wraps, the ring then holds the last SCROLLBACK_SIZE bytes of old contents ++ data; both slice copies stay in bounds. |
| `ScrollbackRing.Scrollback.CopyIn` | src/scrollback.rs:42-48 | The two slice copies lay the new bytes down circularly from the write position and change nothing else. |
| `ScrollbackRing.AppendIndex` | src/scrollback.rs:42-56 | Circular arithmetic of an append: which physical byte afterwards is which byte of old ++ new, and that it was overwritten exactly when it is a new one. |
| `ScrollbackRing.AppendKeepsLast` | src/scrollback.rs:32-57 | One append refines `Last(SCROLLBACK_SIZE, _)`. |
| `ScrollbackRing.AppendsKeepLast` | src/scrollback.rs:26-57 | Any number of appends of any sizes: reading `len` bytes round from `head` gives the last SCROLLBACK_SIZE bytes of everything appended. |
| `ScrollbackRing.MaskSubtractsOneLap` | src/scrollback.rs:42-54 | Bitwise masking with a power of two less one takes one lap off an index below two laps. |
| `ScrollbackRing.MaskWraps` | src/scrollback.rs:42-54 | The mask applied to every index is both the circular wrap and the remainder modulo the ring size. |
| `ScrollbackRing.WindowIsContents` | src/scrollback.rs:78-88 | What lies between a replay cursor and the write end is the tail of the ring's contents. |
| `ScrollbackRing.CursorAfterDrain` | src/scrollback.rs:96-97 | A cursor that sent `n` bytes is `n` bytes nearer the write end. |
| `ScrollbackRing.CursorAfterAppend` | src/scrollback.rs:50-56 | An append within the bound leaves a cursor where it is, that much further behind the write end. |
| `ScrollbackRing.WindowSurvives` | src/scrollback.rs:42-56 | The bytes under a cursor survive every append that leaves distance plus size within the ring. |
| `ScrollbackRing.OverwriteBoundIsExact` | src/scrollback.rs:32-57 | With `n` bytes still to replay, one append of `k` more bytes leaves them intact in every ring if and only if k + n does not exceed the ring size. |
| `ScrollbackRing.OverwriteBoundIsExactInChunks` | src/session_daemon.rs:617-622 | The same for `k` bytes that come in any number of chunks of at most any given size, as terminal output does. |
| `Replay.SlicesMeet` | src/scrollback.rs:80-97 | Two circular slices that meet are one, so what partial writes send piecewise is one slice. |
| `Replay.ReplayState.Step` | src/scrollback.rs:80-97 | One write sends what the cursor moves over, up to the physical end of the buffer, and nothing on failure. |
| `Replay.ReplayState.Drain` | src/scrollback.rs:78-100 | Under every schedule of partial writes, EINTR and EAGAIN, exactly the slice the cursor moved over was sent, in order; it stops early only on EAGAIN (true) or an error (false). |
| `Protocol.FromU8` | src/protocol.rs:35-47 | A byte is a message type exactly when it is that type's code. |
| `Protocol.TypeCodes` | src/protocol.rs:16-47 | The eight codes as numbers, 0 Push to 7 Info, in both directions; every other byte means nothing. |
| `Protocol.WireLayout` | src/protocol.rs:50-60 | Byte 0 on the wire is the type, byte 1 `len`, bytes 2 to 9 the data. |
| `Protocol.Decode` | src/protocol.rs:50-60 | Byte 0 is taken as the type, byte 1 as `len`, the rest as data, and encoding gives the ten bytes back. |
| `Protocol.EncodeIsInjective` | src/protocol.rs:50-60 | Different packets have different encodings. |
| `Protocol.FramesOfEncodeAll` | src/protocol.rs:124-145 | Round trip of whole streams: cutting an encoded stream into tens gives back the packets, whatever follows. |
| `Protocol.GivingUpKeepsFramingOnlyAtBoundary` | src/protocol.rs:112-139 | A read that gave up after `lost` bytes leaves every stream framed if and only if it had taken nothing. |
| `Protocol.ReadFrom` | src/protocol.rs:124-145 | However ten bytes arrive, success consumes exactly the encoding of the packet returned; a failure consumed fewer than ten bytes, end of file all there were; EAGAIN and errors are told apart by what the reads answered. |
| `Protocol.WriteTo` | src/protocol.rs:160-180 | Success has sent exactly the ten bytes, failure a proper prefix of them, and failure has a cause. |
| `Protocol.WriteBuf` | src/protocol.rs:205-225 | A prefix of the buffer was sent, all of it unless the socket filled up or failed. |
| `KernelModel.Os.Close` | src/session_daemon.rs:425-429 | Only an open descriptor may be closed, so no call site closes one twice. |
| `KernelModel.Os.Select` | src/session_daemon.rs:342-384 | Only open descriptors may be waited on, so no closed one is ever put into a set. |
| `DaemonSafety.StepKeeps` | src/session_daemon.rs:288-330 | Every step keeps descriptor ownership (clients' descriptors are distinct, are exactly the open ones, and each number was closed as often as handed out, less one while open), the ring as the tail of all terminal output, and every replay cursor inside the ring. |
| `DaemonSafety.RunKeeps` | src/session_daemon.rs:288-330 | ... so does every run. |
| `DaemonSafety.OnlyJoinOpens` | src/session_daemon.rs:390-407 | No step but an accept opens a connection. |
| `DaemonSafety.RefuseKeeps` | src/session_daemon.rs:390-396 | A connection rejected at once leaves every other connection as it was and the books balanced. |
| `DaemonModel.SwapRemovedIsRemoval` | src/session_daemon.rs:429-463 | `swap_remove` takes out exactly one client and keeps descriptors distinct. |
| `DaemonModel.WithoutIsFilter` | src/session_daemon.rs:316-325 | `retain` keeps exactly the clients not named, in order. |
| `Batch.PacketTouchesOnlySender` | src/session_daemon.rs:414-466 | A packet from one client changes no other client's record and no other connection, though swap_remove may move it in the list. |
| `Batch.TurnOnClients` | src/session_daemon.rs:423-464 | A turn either swap-removes its client or rewrites its record where it stands; ring, log and terminal output are untouched. |
| `Batch.WalkGoesOn` | src/session_daemon.rs:414-466 | One turn keeps the walk's invariant, the index staying put exactly when the client is dropped. |
| `Batch.WalkEnds` | src/session_daemon.rs:414-466 | A finished walk served exactly the readable clients present at its start, each exactly once. |
| `Batch.BatchGoesOn` | src/session_daemon.rs:414-466 | Half way through a batch: a turn moves the walk on, leaves everything the others sent unread, and what it did is judged by what was unread when the batch began. |
| `Batch.SmoothTurnReadsPacket` | src/session_daemon.rs:423-443 | With no transient and no failure, a turn serves exactly the packet in the first ten unread bytes, and finds the connection gone exactly if there are fewer. |
| `Batch.BatchOutcome` | src/session_daemon.rs:414-523 | A client is on the list after a batch if and only if it is what its own turn made of a client listed before, whatever the others sent and however they were moved about. |
| `Daemon.SessionDaemon.constructor` | src/session_daemon.rs:192-265 | A new daemon satisfies the invariant, has no clients, and its log, if any, holds the last bytes of the old one; log lines and marker are the ones given. |
| `Daemon.SessionDaemon.AcceptClient` | src/session_daemon.rs:390-407 | The connection `accept` gave, if any, is registered at the end of the list, silent and with its peer's pid, or, exactly if it cannot be made non-blocking, closed at once with a warning in both logs; without one nothing changes. |
| `Daemon.SessionDaemon.LogWarn` | src/session_daemon.rs:268-273 | The warning is recorded in the application log, and appended to the session log if there is one. |
| `Daemon.SessionDaemon.HandlePush` | src/session_daemon.rs:469-477 | The terminal is offered exactly the first `len` bytes, at most eight, on this client's behalf; nothing else changes. |
| `Daemon.SessionDaemon.HandleAttach` | src/session_daemon.rs:484-507 | With `len` not 0, or nothing to replay, the client is attached at once and nothing else changes. Otherwise the cursor starts at the ring's oldest byte, what was sent is a prefix of its contents, all of it unless a write gave EAGAIN or failed, and the client is attached only if all of it went out. |
| `Daemon.SessionDaemon.HandleDetach` | src/session_daemon.rs:510-513 | The flag is cleared; a pending replay stays pending. |
| `Daemon.SessionDaemon.HandleWinch` | src/session_daemon.rs:547-551 | The window size is set, and nothing else happens. |
| `Daemon.SessionDaemon.HandleRedraw` | src/session_daemon.rs:557-575 | The window size is set; then Ctrl-L is typed exactly if asked for and the terminal is raw, and SIGWINCH sent exactly if asked for. |
| `Daemon.SessionDaemon.HandleKill` | src/session_daemon.rs:579-586 | The signal of the packet, or SIGTERM for 0, goes to the child. |
| `Daemon.SessionDaemon.HandleForceDetach` | src/session_daemon.rs:520-523 | Eviction is requested, and only the requester is dropped now. |
| `Daemon.SessionDaemon.HandleInfo` | src/session_daemon.rs:535-544 | The reply is a beginning of each part in order: the number of attached clients, then their pids in list order; it is all of each unless the socket filled up or failed; then the requester is dropped. |
| `InfoReply.AttachedIsFilter` | src/session_daemon.rs:536 | The clients listed are exactly those attached, in list order. |
| `InfoReply.AttachedCount` | src/session_daemon.rs:536-537 | ... and there are as many as attached descriptors. |
| `InfoReply.InfoReads` | src/session_daemon.rs:537-542 | The parts read "attached: " and the number, then "pid: " and each pid, a line each. |
| `InfoReply.AsksByCode` | src/session_daemon.rs:445-507 | What a packet asks for by its code and `len`: type 0 its first `len` bytes, at most eight, typed; type 1 with `len` 0 a replay of all the ring holds; type 4 with 2 a Ctrl-L; type 7 the reply. |
| `Daemon.SessionDaemon.Dispatch` | src/session_daemon.rs:445-455 | Each packet type has the effect its step says, unknown types none; a Push is offered to the terminal in full, a redraw by Ctrl-L asks for the terminal's mode, an Info is answered, and an Attach replays all, unless a write gave EAGAIN or failed; types 6 and 7 and no others end the connection. |
| `Daemon.SessionDaemon.ServeClient` | src/session_daemon.rs:417-464 | One client's turn is one step. It finds the connection gone only if fewer than ten bytes were unread or a read failed; it leaves off only on EAGAIN, with no failure; a packet is acted on in full; the client is removed exactly when its descriptor was closed, which is when it is gone or the packet had type 6 or 7. |
| `Daemon.SessionDaemon.GiveUpReading` | src/session_daemon.rs:425-442 | EAGAIN keeps the client, end of file and errors close and remove it. |
| `Daemon.SessionDaemon.ServeTurn` | src/session_daemon.rs:417-464 | The turn as the batch sees it: its reason, the input it pushed, the redraw it asked for, the reply it gave. |
| `Daemon.SessionDaemon.TakeTurn` | src/session_daemon.rs:417-464 | A turn in the walk: the index stays exactly when the client was dropped, and the steps so far grow by this one. |
| `Daemon.SessionDaemon.HandleClientPackets` | src/session_daemon.rs:414-466 | The batch terminates and gives exactly the clients present at its start that are readable one turn each. Each read the packet that was unread when the batch began; it found the connection gone only for want of one or, if any call failed, for that; it left off only if there was a transient. The input pushed, the redraws asked for and the replies given are those of the packets read, in order. |
| `Daemon.SessionDaemon.EvictIfAsked` | src/session_daemon.rs:314-326 | If and only if asked, everyone attached is closed and removed, the rest stay in order, and the request is spent. |
| `Daemon.SessionDaemon.CloseAttached` | src/session_daemon.rs:316-325 | The closing predicate of `retain` closes each attached client exactly once. |
| `Daemon.SessionDaemon.DrainReplay` | src/session_daemon.rs:591-606 | Exactly the clients with a pending replay and a writable socket get a turn, in list order; unless a write gave EAGAIN or failed, each of them has nothing pending afterwards and is attached. |
| `Daemon.SessionDaemon.DrainTurn` | src/session_daemon.rs:593-604 | One client's turn in this pass: taken exactly if a replay is pending and the socket is writable, and then finished unless a write gave EAGAIN or failed. |
| `Daemon.SessionDaemon.DrainClient` | src/session_daemon.rs:593-604 | The turn sends the slice the cursor moves over and attaches the client exactly if nothing remains; something remains only if the socket filled up or failed. |
| `Daemon.SessionDaemon.WriteRound` | src/session_daemon.rs:700-719 | Each attached writable client is asked once, in list order: exactly those that took the whole chunk have it, exactly those whose answer was neither that nor EAGAIN (EINTR included) are marked bad, everyone else got nothing. |
| `Daemon.SessionDaemon.WriteOne` | src/session_daemon.rs:706-718 | One write, of the whole chunk, puts its client among the served, the bad or neither, by its answer alone. |
| `Daemon.SessionDaemon.FanRound` | src/session_daemon.rs:700-727 | After a round nobody is left with part of a chunk. |
| `Daemon.SessionDaemon.TryFanOut` | src/session_daemon.rs:663-737 | One pass: it selects on the listener and all attached clients; if ready, exactly the writable ones are each written to once, in list order; then, and only then, the answers, the listener and who is left decide whether and why it stops; otherwise it has made progress. |
| `Daemon.SessionDaemon.WriteOnce` | src/session_daemon.rs:700-737 | After a select that is ready: every writable client is written to before anything else decides. |
| `FanOut.VerdictIsExact` | src/session_daemon.rs:674-737 | The fan-out goes on if and only if select was interrupted, or was ready and nobody was written to, the listener is quiet and somebody attached is left; each reason to stop is what it says. |
| `Daemon.SessionDaemon.SendToClients` | src/session_daemon.rs:659-739 | Over all passes, with any select and write outcomes: a client still listed got the chunk exactly once or not at all; closed and gone are exactly those to whom some write was answered by neither the whole chunk nor EAGAIN; clients not attached are untouched. No client found writable by any select was passed over. It stops with the verdict of its last pass, none before it had one, and nobody took the chunk before it. |
| `Daemon.SessionDaemon.HandlePtyOutput` | src/session_daemon.rs:613-645 | One read of at most 4096 bytes if the terminal is readable; what it gives is put into ring and log and fanned out, in one step, with the selects and writes of that fan-out; the child is gone if and only if the read found end of file or an error. |
| `Daemon.SessionDaemon.BuildFdSets` | src/session_daemon.rs:342-384 | Watched for reading: the listener, the terminal and every client; for writing: exactly the clients with a pending replay; the flag says whether anyone is attached. |
| `Daemon.SessionDaemon.Wait` | src/session_daemon.rs:290-306 | It selects on exactly the listener, the terminal and every client, and for writing on exactly the clients with a pending replay; all are open, and waiting changes nothing but the flag that says whether anyone is attached. |
| `Daemon.SessionDaemon.ServeConnections` | src/session_daemon.rs:308-312 | One accept exactly if the listener is readable, its connection admitted; then a turn for exactly the readable clients; with what was pushed, redrawn and replied. |
| `Daemon.SessionDaemon.Attend` | src/session_daemon.rs:308-328 | Accepting, the packet batch, the eviction if asked for, and the replays, in this order. |
| `Daemon.SessionDaemon.EvictAndReplay` | src/session_daemon.rs:314-328 | The eviction if asked for, and then the replays. |
| `Daemon.SessionDaemon.Work` | src/session_daemon.rs:308-329 | The five phases run in their order and attend to exactly what is ready; the pass is the last if and only if the child is found gone. |
| `Daemon.SessionDaemon.Iterate` | src/session_daemon.rs:289-330 | One pass is one select on exactly the right sets and the turn that answers it: if ready, all five phases on exactly what was ready, with their accept, reads, writes, replies; if not, nothing. It is the last if and only if that select failed or the child was found gone. No eviction is pending afterwards. |
| `Daemon.SessionDaemon.Cleanup` | src/session_daemon.rs:742-752 | The end marker is the last thing in the log. |
| `Daemon.SessionDaemon.Run` | src/session_daemon.rs:288-334 | As many passes as asked for, unless one ends it. The turns answer the passes, and the passes' selects, accepts, terminal reads, pushed input and replies are, in order, all there were; no pass follows one that ended the session; invariant and no pending eviction at every loop head; at the end the log is the run's log and the marker. |
| `Passes.PassDone` | src/session_daemon.rs:308-329 | Five phases and what each says of its calls make a pass. |
| `Passes.PassesGoOn` | src/session_daemon.rs:288-330 | One more pass on top of a run of passes is a run of passes. |
| `Passes.TraceGrows` | src/session_daemon.rs:288-330 | ... and its calls come after theirs. |
| `Turns.TurnsAreRun` | src/session_daemon.rs:288-334 | A run of turns is a run of steps, so every theorem about runs of steps holds of the loop. |
| `Turns.TurnDone` | src/session_daemon.rs:308-329 | Five phases one after another make a well-formed turn. |
| `Turns.FlagAfterBatch` | src/session_daemon.rs:520-523 | A batch leaves eviction requested if and only if some packet in it was a ForceDetach. |
| `Turns.EvictIsExact` | src/session_daemon.rs:314-326 | Eviction closes and removes exactly the attached clients and keeps the others, in order. |
| `Turns.ForceDetachTurn` | src/session_daemon.rs:314-328 | If a batch contains a ForceDetach, then before replay draining starts nobody attached is left and everybody else is, in order; if not, nobody is removed; either way the request is spent. |
| `Turns.NoEvictionPending` | src/session_daemon.rs:288-330 | In every run no eviction is pending at any loop head. |
| `ChildControl.RunControls` | src/session_daemon.rs:547-586 | Over every run the child gets exactly the signals and window sizes asked for, in the order the packets were served: type 5 the signal it names or 15, type 4 by method 3 signal 28, types 3 and 4 their data as the size. |
| `ClientView.StepProjects` | src/session_daemon.rs:288-330 | Every step, seen by a client that survives it, changes its record and its transcript exactly as that client's own view of the step says. |
| `ClientView.HearsOnlyAttached` | src/session_daemon.rs:702-705 | Live output goes to attached clients only. |
| `Attachment.SilentUntilAttach` | src/session_daemon.rs:399-405 | From acceptance on, over any run, a client gets no byte and keeps its record until its own Attach is served. |
| `Attachment.AttachmentOrigin` | src/session_daemon.rs:484-507 | A client becomes attached only by its own Attach or by the end of its replay. |
| `Attachment.ReplayOrigin` | src/session_daemon.rs:484-496 | A replay begins only by the client's own Attach. |
| `Attachment.AttachWithoutReplay` | src/session_daemon.rs:484-487 | A served Attach with `len` not 0, or with nothing to replay, attaches its client, leaves its cursor, and sends nothing. |
| `Attachment.AttachWithReplay` | src/session_daemon.rs:488-505 | Any other: what is sent at once and what remains to be replayed are together the ring's contents; attached exactly if it was before or nothing remains. |
| `Attachment.DrainGoesOnFromCursor` | src/session_daemon.rs:591-606 | What a drain sends and what remains after it are together what remained before; attached exactly if it was before or nothing remains. |
| `Attachment.AttachGuardIsExact` | src/session_daemon.rs:484-507 | An Attach keeps "attached implies nothing pending", however much of the replay the socket takes, if and only if a replaying Attach meets a client not attached and any other Attach one with no replay pending. |
| `Attachment.StepKeepsApart` | src/session_daemon.rs:497-504 | Under that guard, no step makes any client attached with a replay pending. |
| `Attachment.RunKeepsApart` | src/session_daemon.rs:497-504 | ... nor does any run. |
| `Attachment.DetachIsFinalOnlyWithoutReplay` | src/session_daemon.rs:510-513 | A Detach stays in force over every further run without a new Attach if and only if no replay was pending when it was served. |
| `Attachment.WellTimedClientStaysApart` | src/session_daemon.rs:484-513 | A client that alternates Attach and Detach and never detaches in mid-replay is always silent, replaying or live, as its last word says. |
| `Mixing.SuspendInMidReplayMixes` | src/session.rs:1246-1262 | A run of a freshly started daemon with exactly what the client writes when it attaches, is suspended in mid-replay and resumed: at one moment it is attached against its last word, and in the end it was sent [1,2], the live [3], and then [1,2] again. |
| `Mixing.LateReplaySendsNewBytes` | src/session_daemon.rs:591-606 | In every state with a full ring and a silent client asking for a replay, there is a run that sends it the next byte of output in place of the oldest byte it was promised. |
| `Delivery.DeliveryTheorem` | src/session_daemon.rs:484-507 | Whole-run delivery: a client that attaches once and survives, every replay write that makes progress within the bound, has been sent a prefix of the ring as it was at its Attach, or, once attached, all of it and then whole chunks of later output in order; no byte twice, torn or interleaved. |
| `Delivery.HeardIsSubsequence` | src/session_daemon.rs:659-739 | The chunks a client hears are some of those read, in order. |
| `Delivery.RunStaysOnSchedule` | src/session_daemon.rs:591-606 | Throughout a run within the bound, the cursor stays on the intact rest of the snapshot. |
| `Delivery.ChunkIsAtomic` | src/session_daemon.rs:659-739 | After a fan-out a client is gone with its connection closed, or listed as before with the whole chunk or nothing added; one not attached is left alone. |
| `Episodes.DeliveryOverAttachments` | src/session_daemon.rs:484-513 | Delivery over any number of attachments: a client that alternates Attach and Detach, its Detaches after its replay and its replays within the bound, has been sent for each attachment in turn the ring at that Attach and then whole chunks of the output since, in order; of the last one perhaps only a prefix of the ring so far. |
| `Episodes.RunKeepsStatus` | src/session_daemon.rs:484-513 | Throughout such a run the client is silent and fully told, or on the schedule of its last attachment, as its last word says. |
| `LogAgreement.RunWrites` | src/session_daemon.rs:620-626 | A run adds to the log what it read and the warnings, in order. |
| `LogAgreement.LogIsOutput` | src/session_daemon.rs:620-626 | In any run, the log is its contents at the start and then the whole terminal output if and only if no rejected connection put a line into it. |
| `LogAgreement.RingIsSuffixOfLog` | src/session_daemon.rs:620-626 | Then the ring's contents are always a suffix of the log. |
| `Logs.SessionLog.Open` | src/session_log.rs:34-47 | Opening leaves the last `max_size` bytes, for a positive limit, and the cursor at the end. |
| `Logs.SessionLog.Rotate` | src/session_log.rs:71-92 | The file is pruned to its last bytes, the cursor at its end. |
| `Logs.SessionLog.Write` | src/session_log.rs:53-55 | The data is appended. |
| `Logs.SessionLog.Close` | src/session_log.rs:62-64 | The marker is the last thing written. |
| `Logs.RotatedIsLast` | src/session_log.rs:71-92 | Opening keeps the last `max` bytes of every file if and only if `max` is at least 1. |
| `Logs.SessionLogKeepsLast` | src/session_log.rs:34-64 | Over any number of open, write and close generations, a freshly opened log is the last `max` bytes of everything ever written. |
| `Logs.EscapeIsBytewise` | src/app_log.rs:94-96 | The two replacement passes do not disturb each other: together they are one byte-by-byte escape. |
| `Logs.EscapesRead` | src/app_log.rs:94-96 | A carriage return becomes `\r` in two bytes, a line feed `\n`, and any other byte stays. |
| `Logs.RecordIsOneLine` | src/app_log.rs:60-66 | A record has exactly one line feed, its last byte, and no carriage return. |
| `Logs.RecordReads` | src/app_log.rs:60-66 | A record is the timestamp in decimal, "INFO", "WARN" or "ERROR", and the escaped message, with a blank between. |
| `Logs.DecimalIsNumeral` | src/app_log.rs:61-66 | A numeral stands for its number and has no leading zero. |
| `Logs.AppLog.Record` | src/app_log.rs:60-84 | The file becomes the last 256 KiB of its old contents and the new line. |
| `Logs.AppLog.RotateFile` | src/app_log.rs:110-132 | Pruning keeps the last `max` bytes, for 0 as well. |
| `Logs.AppLogKeepsLast` | src/app_log.rs:60-84 | After any number of records the application log is the last 256 KiB of its initial contents and all lines. |
| `TailScan.FindTailStart` | src/util.rs:165-191 | The chunked backward scan returns the least offset from which the text holds at most `nlines` line feeds, 0 for a negative count, wherever the chunk boundaries fall. |
| `TailScan.ScanBack` | src/util.rs:181-188 | One chunk, last byte first, finds the line feed that is one too many or counts them all. |
| `TailScan.StartAfterNewline` | src/util.rs:182-186 | The offset after the line feed that is one too many is the least one that fits. |
| `TailScan.TailStartIsUnique` | src/util.rs:159-164 | There is only one such offset, so the result does not depend on the chunk size. |
| `TailScan.NthLineFeedOnlyForShortTexts` | src/util.rs:159-191 | The offset after the `n`th line feed from the end, which the comment promises, is the result for `n` if and only if the text has fewer than `n` line feeds. |
| `TailScan.NthLineFeedIsNotTheStart` | src/util.rs:159-191 | In a file of one empty line the two differ: 1 and 0. |
| `Pipeline.StreamIsReadInOrder` | src/session_daemon.rs:414-443 | Over a run with any other clients and any fragmentation, with no read given up in the middle of a packet that is there in full, the packets read from a client are the first ones it wrote, in order, and the rest is still unread; the stream may end in a packet cut off. |
| `Pipeline.TypedIsPushed` | src/session_daemon.rs:469-477 | With any number of clients, and each payload taken whole by the terminal, the terminal input that came from one client is the payload of its consumed Push packets, in order. |
| `Pipeline.PushIsIdentity` | src/session.rs:354-375 | The push pipeline is the identity on bytes, if the terminal takes each payload whole and no read is given up in the middle of a whole packet: of an input cut into reads of one to eight bytes exactly the first cuts have been typed, and all of them once no whole packet is unread; the last packet may be cut off. |
| `Pipeline.TurnsOfPackets` | src/session_daemon.rs:445-455 | A run keeps to the attach protocol if and only if the packets read from the client do. |
| `Pipeline.AlternatingClientStaysApart` | src/session_daemon.rs:484-513 | End to end: a client that writes alternating Attach and Detach packets, its Detaches served after its replay, never has live and old output mixed. |
| `ClientSession.ReadInput` | src/session.rs:355-367 | What was read becomes the payload of a zero-padded Push packet of that length; a read without result has its cause. |
| `ClientSession.PushOne` | src/session.rs:354-375 | One pass sends what it read as one packet, or ends with the input, or fails because a read or a write did. |
| `ClientSession.PushStdin` | src/session.rs:334-376 | The wire carries the packets of the first cuts of standard input; on success that is all of it, and it fails only if a read or a write did, with at most one packet torn. |
| `ClientSession.PushedInputIsTyped` | src/session.rs:354-375 | End to end, under the conditions of the push pipeline: whatever `push` was given and whether or not it failed, the terminal is given a beginning of it, and all of it if `push` succeeded and no whole packet is unread. |
| `ClientSession.AttachSession` | src/session.rs:309-328 | On success exactly Attach and then Redraw are on the wire, on failure a beginning of that; it fails only if a write did. |
| `ClientSession.OpeningOnTheWire` | src/session.rs:309-328 | The opening byte by byte: 1, whether to skip the replay, eight zeros; 4, the redraw method, the window size. |
| `ClientSession.HandleStdinData` | src/session.rs:1216-1288 | The suspend key, unless switched off, comes before the detach key, which comes before forwarding; the wire carries exactly the packets of that choice unless a write failed; it leaves without input only at end of input or on a failed read, and does nothing only on EINTR or EAGAIN. |
| `ClientSession.HandleKey` | src/session.rs:1246-1288 | The key order on the bytes just read, and the packets of the choice. |
| `ClientSession.ActsOnTheWire` | src/session.rs:1216-1288 | The packets of each choice byte by byte: input as type 0, its length, its bytes and zeros; a suspension as the same with type 2, then 1, 0 and zeros, then 4, the method and the size; a resize as 3, 0 and the size. |
| `ClientSession.SendSuspend` | src/session.rs:1246-1263 | A suspension sends the read packet as a Detach, then a fresh Attach asking for a replay, then Redraw, unless a write failed. |
| `ClientSession.ConversationAlternates` | src/session.rs:1216-1288 | However it is used, an attached client's Attach and Detach packets come in turn, the Attach first. |
| `RemoveAll.SessionDir.RmStaleSockets` | src/session.rs:659-691 | The first pass removes exactly the non-hidden stale sockets not named like a log, with their logs, and counts each once. |
| `RemoveAll.SessionDir.RmOrphanedLogs` | src/session.rs:693-719 | The second pass removes exactly the logs that are orphaned when examined, and counts them. |
| `RemoveAll.SessionDir.ExamineLog` | src/session.rs:699-715 | A log goes if and only if it is not the application log and nothing exists at its stem. |
| `RemoveAll.SessionDir.RmAll` | src/session.rs:842-853 | The result is that of some order of the second listing; the count is dead sessions plus logs removed by the second pass; unless the first pass leaves a log of an orphaned log, exactly the dead sessions, their logs and then the orphaned logs are gone. |
| `RemoveAll.DeadSessionsAre` | src/session.rs:659-691 | Whom the first pass counts: the stale entries whose name neither begins with a dot nor ends in ".log" after something. |
| `RemoveAll.WhoIsRemoved` | src/session.rs:659-719 | After any run, an entry not so named is gone if and only if it is stale and its name does not begin with a dot; ".ztch-app.log" stays; nothing is added or altered. |
| `RemoveAll.WhichLogsAreRemoved` | src/session.rs:659-719 | After any run, the log of a name not itself ending in ".log" is gone if and only if that name is such an entry, or is not there, or is a link to nothing. |
| `RemoveAll.SweptRemovesOrphans` | src/session.rs:693-719 | Without such a log the second pass removes exactly the orphaned logs it examines. |
| `RemoveAll.TwoPasses` | src/session.rs:842-853 | The two passes have one and the same result in every order of the listings, a single sweep, if and only if the first pass leaves no log of an orphaned log. |
| `RemoveAll.LiveSessionsKeepTheirFiles` | src/session.rs:659-719 | In any directory, a live session not named like a log keeps its socket and its log. |
| `RemoveAll.LiveSessionNamedLikeALog` | src/session.rs:699-712 | A live session named like a log is kept in every order of the listings if and only if its stem is no dead session and, after the first pass, its session is there and not itself to be lost as a log, and so on down the name. |
| `RemoveAll.KeptByEveryRun` | src/session.rs:693-719 | Any entry is kept by every order of the listings if and only if it survives the first pass and is not doomed in that sense. |
| `RemoveAll.LostToEveryRun` | src/session.rs:693-719 | ... and lost in every order if and only if it does not survive the first pass or is an orphaned log after it. |
| `RemoveAll.NobodyCountedTwice` | src/session.rs:846 | The second pass removes only logs, and none whose session the first pass counted. |
| `RemoveAll.SecondRunIsIdle` | src/session.rs:842-853 | A second `rm -a` removes nothing, whatever the order of any listing, if and only if the first pass of the first leaves no log of an orphaned log. |
| `RemoveAll.SecondRunTakesOrphans` | src/session.rs:842-853 | After any run, a second one removes nothing in every order if and only if the first left no orphaned log. |
| `RemoveAll.SweepTwice` | src/session.rs:842-853 | Where the result does not depend on the order, sweeping twice is sweeping once. |
| `RemoveAll.TidySweep` | src/session.rs:659-719 | In a directory with no session named like a log and no log of a log, that holds, and what goes can be told from the directory as it was. |

## Left out

- Real system calls, `fork`, signals, terminal modes, exit statuses and `waitpid`: only the outcomes of the
  calls named above are modelled. A window size is the eight bytes of its packet.
- Liveness: the loop and the fan-out may wait for ever by design. The environment fails
  transiently any finite number of times (`Os.transients`), and `Run` makes any given number of
  passes; what is proved holds after every pass.
- Client records are values in a sequence field, as the vector owns them; nothing else refers to one.
- Descriptor numbers have no upper limit, so FD_SETSIZE and overflow of the `i32` newline count
  are not modelled.
- The socket's executable bit (only the flag behind it), the unlinking of the socket at the end, the clock,
  and the wording of the warning and of the end marker (any bytes).
- Failing log writes, short file reads, truncation of the log by `clear`, and other writers of the
  application log.
- Start-up, the error pipe, connecting, `kill`, `list`, printing, and the client's own event loop around
  `HandleStdinData`; restoring the terminal and exiting.
- For `rm -a`: files that cannot be removed, directories, changes made meanwhile by others, names that are
  not UTF-8, and socket probing beyond its three outcomes.
