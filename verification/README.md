# A verified model of rsb

`rsb` runs commands and moves files over a two-hop multiplexer: clients talk to a daemon over a unix socket, and the
daemon holds one pipe per host to an agent, which runs many requests at once. This project models the concurrent
protocol and the streaming loops that ride on it, and proves what they keep.

Concurrency is modelled by step systems: every lock acquisition, lock release, channel operation and frame is a step
of its own, a run is any sequence of enabled steps, and the theorems quantify over all runs. Code that works by
updating variables is modelled by methods with loops and by classes, proved against specifications. What a process, a
file system call, a client or the agent does next is chosen freely in both.

| files | what they model |
|---|---|
| `Basics`, `Framing`, `Wire` | length-prefixed frames; `writeFrame` by many goroutines, byte by byte |
| `Sessions`, `SessionCore` | the session table, and what exec goroutines do to it |
| `AgentMachine`, `AgentProofs`, `AgentTheorems` | the agent: reader loop, execs, streamers, file_gets, three kinds of locks, WaitGroup |
| `AgentReports` | what the agent tells its clients: that every request is answered, and truthfully |
| `StdinPump` | stdin on its way to a process |
| `Router`, `RouterProofs`, `RouterTheorems`, `RouterLeavers` | one host connection of the daemon with its bridges, queues, pumps and its death; clients that leave |
| `Pool` | the fields of a host connection and of the pool, updated in place, each method tied to the steps of `Router` |
| `RemoteDisk`, `Put`, `Resync`, `Sync` | uploads against an arbitrary frame stream, uploads in a row, directory sync |
| `Lines`, `Cat`, `Grep` | line slicing at both ends, downloads, ripgrep's JSON lines |

Assumptions that are in the statements: request ids are unique; the JSON codec decodes what it encodes; where
checksums matter, SHA-256 has no collisions; no proper prefix of a JSON line is JSON. The daemon's theorems take for
granted that an agent answers only requests it has received, and nothing after a terminal frame; that is proved of the
agent in `AgentTheorems.TerminalEndsId`.

What the proofs found, each stated below as a lemma or in a contract:

- `ReadFrame` returns io.EOF for a stream that ends right behind a length header (`Framing.Truncation`).
- When `run` has returned, exactly the file_gets that had entered the WaitGroup are finished and answered
  (`AgentTheorems.ExitAfterEntered`). The others never start, because a file_get enters the WaitGroup from its own
  goroutine (`AgentTheorems.GetMayOutliveRun`).
- After `closed` is set, a send can still enqueue exactly when it looked before, the channel is not closed yet, and the
  queue has or gets room (`RouterTheorems.SendPassesFlag`, `RouterTheorems.LookedBefore`); a request registered after
  `failAll`'s swap and accepted before `close` gets no reply at all (`RouterTheorems.DeathAnswers`,
  `RouterTheorems.LateRequestUnanswered`).
- A client that leaves can bring the daemon down exactly when one of its requests is not settled: the request's pump may
  then send on a closed channel (`RouterLeavers.LeaverMayCrash`). So leaving in the middle of any exec can panic the
  daemon, and so can leaving after a file_stat, whose reply is not a terminal frame
  (`RouterLeavers.UnterminatedIsUnsettled`, `RouterLeavers.LeaverCrashes`).
- A local file that cannot be opened after its request was sent leaves the agent in the put loop; it stores the next
  upload under the first one's path (`Resync.StrayContent`). In a directory sync the next frame is a file_stat, which is
  never answered, so that the client waits for ever (`Resync.StatIsSwallowed`).
- `sync --dry-run` is wrong exactly when a file that differs has its temporary name taken by another file that is up
  to date (`Sync.DryRunExact`).
- Whole-file downloads are called truncated also when the file has exactly the length of the cap (`Cat.GetWhole`).
- A download that passes is sure to be complete exactly when its last Done chunk has come, carries the content's
  checksum, and is not marked truncated (`Cat.CompleteExactly`). A download whose Done chunk is lost passes, untruncated,
  with whatever chunks came (`Cat.WithoutDone`), and so does a truncated one (`Cat.TruncatedIsUnchecked`).
- Without a line range, a capped `rsb cat` shows the same locally and remotely exactly when what the remote end sends
  consists of whole lines that end in a bare line feed and are shorter than one MiB (`Cat.WithoutRange`).
- The grep parser prints every match before the first JSON line of one MiB or more, however the output is cut; some cut
  loses a match exactly when one sits at or behind that line (`Grep.LostExactly`). The end of such a line that arrives in
  a later frame stays in the buffer and swallows the next line (`Grep.NextLineIsSwallowed`).

## Model

| member | source | states |
|---|---|---|
| Framing.Uint32RoundTrip | internal/protocol/protocol.go:222-226 | a length that passed the MaxPayload check survives the conversion to 32 bits and the big-endian header |
| Framing.WriteFrame | internal/protocol/protocol.go:212-234 | appends the whole encoding or nothing; refuses exactly the frames that cannot be marshalled or are longer than 64 MiB |
| Framing.Reader.ReadFull | internal/protocol/protocol.go:240-250 | the same bytes for every way in which the stream is cut into pieces |
| Framing.ReadFrame | internal/protocol/protocol.go:238-256 | frame, error and bytes consumed depend on the bytes alone, not on their pieces |
| Framing.ReadAll | cmd/rsb-agent/main.go:128-140 | the reader loop returns all frames up to the first error, for every segmentation |
| Framing.RoundTrip | internal/protocol/protocol.go:212-256 | decoding the concatenated encodings of any frames returns those frames and then io.EOF |
| Framing.DecodeCut | internal/protocol/protocol.go:236-252 | whole frames and a part of one more decode to the whole frames; io.EOF exactly after no byte or a bare header |
| Framing.Truncation | internal/protocol/protocol.go:236-252 | any truncation yields a proper prefix of the frames and an error, io.EOF iff at a frame boundary or right behind a header |
| Wire.WireAtomic | cmd/rsb-agent/main.go:192-198 | in every interleaving of two-part writes, also when the pipe breaks, the bytes decode to exactly the completed frames, and each goroutine's are those of its calls, in order, all of them when it is not inside and the pipe holds |
| Wire.BytesKept | internal/protocol/protocol.go:225-233 | every step keeps: output = encodings of completed frames + the partial frame of at most one writer |
| Wire.WriterMoves | cmd/rsb-agent/main.go:192-198 | nobody is stuck in writeFrame: whoever waits gets the free lock, and the holder's next step is decided by its frame and the pipe |
| Sessions.SessionTable.ResolveSession | cmd/rsb-agent/main.go:206-217 | the new table and object are those of the pure specification: found by name, or created, and private for the empty name |
| Sessions.SessionTable.PersistSession | cmd/rsb-agent/main.go:223-239 | the key-by-key loop merges the request's environment over the session's and sets the directory only for an explicit cwd |
| Sessions.CdNames | cmd/rsb-agent/main.go:284-300 | the directory `cd` names: absolute, under HOME, or below the current directory, which is the request's, else the session's, else the agent's; without a target it stays |
| SessionCore.StepIsShift | cmd/rsb-agent/main.go:223-239 | every other step of an exec has one common form; in particular persisting by name, after the Result is out, has the effect of committing that command on the object it locked, and so has the built-in cd before its Result |
| SessionCore.LockKeeps | cmd/rsb-agent/main.go:277-280 | taking a session's lock keeps the session invariant: replay, entries, holders and order of its log |
| SessionCore.ShiftKeeps | cmd/rsb-agent/main.go:295-435 | every step of that form keeps the session invariant: replay, entries, holders and order of every log |
| SessionCore.ExecKeeps | cmd/rsb-agent/main.go:274-435 | so every step of an exec goroutine keeps it, whatever the others do in between |
| AgentTheorems.SessionsSerialise | cmd/rsb-agent/main.go:274-435 | in every run each session is the sequential replay, from an empty session, of its committed commands in lock order, each command started in the directory and environment of the replay before it, and it committed iff its Result 0 is on the wire |
| AgentTheorems.CdSticks | cmd/rsb-agent/main.go:282-312 | a command without a cwd of its own starts in the directory that the last committed `cd` of its session named, if no command with a cwd was committed since |
| AgentReports.ReportsWhatHappened | cmd/rsb-agent/main.go:407-434 | in every run: once an exec's process has ended, its terminal frame is the Result with that exit code; after a refusal it is an Error, after the built-in cd Result 0; a nonzero exit or a refusal has changed no session |
| AgentReports.BuiltIn | cmd/rsb-agent/main.go:284-312 | `cd` is built in iff a session is used, and can succeed iff its target resolves; a process is started iff it is anything else |
| AgentReports.NoRequestLost | cmd/rsb-agent/main.go:128-187 | in every run: each request that was read is answered by the reader loop, in it, or a goroutine of its own, with its arguments and session; an upload's reply says how it ended |
| AgentReports.GetFrames | cmd/rsb-agent/files.go:81-187 | in every run a file_get's frames are, in order, a prefix of what its steps called for, and all of it when it is over: data, then the Done chunk and the Result, or an Error after any data |
| AgentReports.OutputConserved | cmd/rsb-agent/main.go:547-568 | in every run the Output frames of an id are the chunks read from its pipes, but for those a streamer is about to write |
| AgentReports.LocksExclude | cmd/rsb-agent/main.go:192-217 | a global lock that is held stays with its holder until the holder itself gives it back |
| AgentReports.TakesAnything | cmd/rsb-agent/main.go:128-187 | the model leaves requests, exit codes, output and the outcome of transfers free |
| AgentTheorems.SessionsShareLogs | cmd/rsb-agent/main.go:206-217 | two commands share a session object iff they name the same session; a command without one is alone |
| AgentTheorems.ReportedPrecedesDispatched | cmd/rsb-agent/main.go:429-434 | in every run: a command whose terminal frame was out at the moment another was dispatched precedes it in their session |
| AgentTheorems.TerminalEndsId | cmd/rsb-agent/main.go:393-429 | no frame of an id follows a Result or Error of that id, for exec, file_get and file_put; every frame carries the id of a request received before, or no id |
| AgentTheorems.ExitAfterEntered | cmd/rsb-agent/main.go:131-138 | when run returns at end of input, every dispatched exec is done with its terminal frame on the wire; a dispatched file_get is finished iff its goroutine had entered the WaitGroup, and iff its terminal frame is on the wire |
| AgentTheorems.GetMayOutliveRun | cmd/rsb-agent/files.go:81-83 | a run in which run returns while a dispatched file_get has not started |
| AgentTheorems.NoDeadlock | cmd/rsb-agent/main.go:192-281 | in every reachable state with unfinished work some goroutine can step without the client |
| AgentTheorems.LockOrder | cmd/rsb-agent/main.go:192-239 | no goroutine holds two global locks, and whoever waits for a session lock holds no lock at all |
| AgentTheorems.HolderCanLeave | cmd/rsb-agent/main.go:192-217 | the holder of a global lock is never blocked and its next step frees the lock |
| AgentProofs.StepKeeps | cmd/rsb-agent/main.go:116-187 | every step of every goroutine keeps the machine's invariant |
| AgentProofs.TurnWaits | cmd/rsb-agent/main.go:265-271 | a step of an exec keeps: the WaitGroup's counter is the number of live execs and of file_gets that have entered it |
| AgentProofs.GetWaits | cmd/rsb-agent/files.go:81-83 | a step of a file_get keeps it too, when it enters and when it ends |
| AgentProofs.GetWire | cmd/rsb-agent/files.go:81-187 | a step of a file_get keeps: nothing of an id follows its terminal frame, and a file_get that is over has its own on the wire |
| StdinPump.StdinConserved | cmd/rsb-agent/main.go:451-543 | in every run with an EOF signal accepted chunks = taken by the process + written in vain + in hand + buffered, in order; a pump that closed the pipe had handled every chunk accepted before the first signal, and written them all if the process still reads; the channel is closed once |
| StdinPump.StdinOpen | cmd/rsb-agent/main.go:502-527 | without a signal nothing accepted is lost and the pump never closes the pipe |
| StdinPump.AcceptedByFeed | cmd/rsb-agent/main.go:451-463 | chunks enter in no other way than by a feed with fewer than sixteen buffered |
| StdinPump.DrainEnds | cmd/rsb-agent/main.go:502-543 | after the EOF signal, without feeds, the pump ends within a decreasing rank, whichever way each select goes, and is never stuck |
| StdinPump.RunningReq.Feed | cmd/rsb-agent/main.go:451-463 | never blocks; the chunk is accepted iff fewer than sixteen are buffered, and then is the last one |
| StdinPump.RunningReq.SignalEOF | cmd/rsb-agent/main.go:479-481 | is the SignalEOF step on the fields, so the channel is closed once whoever calls it how often |
| StdinPump.RunningReq.DrainStdinCh | cmd/rsb-agent/main.go:529-543 | is a run of the pump's own steps that ends it; everything buffered reaches the pipe in order, or the first failing write ends the drain |
| RouterTheorems.FifoPerRequest | internal/daemon/daemon.go:330-362 | on a live connection, in every run, the agent's frames for an id = delivered + socket queue + pump's hand + reply channel + reader's hand + unread pipe |
| RouterTheorems.NoForeignFrames | internal/daemon/helpers.go:95-128 | a client only ever receives frames of its own requests |
| RouterTheorems.OneTerminal | internal/daemon/helpers.go:111-128 | nothing for a request follows its terminal frame, whether from the agent, failAll or a refusal |
| RouterTheorems.DeathAnswers | internal/daemon/daemon.go:337-377 | after failAll an accepted request has what was read for it and one terminal Error if it was in the table, was terminated before, or came after the swap and has nothing |
| RouterTheorems.RefusalAnswers | internal/daemon/helpers.go:115-120 | a refused request gets exactly the refusal, an Error and its terminal frame, whatever becomes of the connection |
| RouterTheorems.Transparent | internal/daemon/helpers.go:101-138 | in every run the frames each client has sent are those its bridge has judged and the one in its hand, in order; the agent-bound stream is an interleaving of the clients' frames, each client's in order and unchanged, minus exactly those refused or of unknown kind; every refused Request has its Error |
| RouterTheorems.SendDecides | internal/daemon/daemon.go:383-394 | in every reachable state: at its look a send goes on iff the flag is unset; at its select it enqueues iff the channel is open and has room, and answers false otherwise |
| RouterTheorems.OwnStepsEnd | internal/daemon/daemon.go:330-394 | every step of the daemon's own, of bridge, writer, pumps or failAll, uses up work, so that the daemon comes to rest when nothing comes from outside |
| RouterTheorems.StepsChange | internal/daemon/daemon.go:330-430 | no step is idle but a second close |
| RouterTheorems.TakesAnything | internal/daemon/helpers.go:95-139 | the model leaves what clients and the agent send, a broken connection, and the daemon's close free at any time; a reply channel takes a frame iff fewer than sixteen are in it |
| RouterTheorems.ClosedOnce | internal/daemon/daemon.go:418-426 | in every run clientIn is closed at most once, and only after the flag is set |
| RouterTheorems.ClosedByClose | internal/daemon/daemon.go:418-430 | in every run the flag is set iff close was called, and the channel is closed iff the second half of a call was reached |
| RouterTheorems.NeverPasses | internal/daemon/daemon.go:383-394 | with the flag set, a client whose bridge is not past its look, or whose channel is closed, never enqueues again in any continuation, and the flag stays set |
| RouterTheorems.SendPassesFlag | internal/daemon/daemon.go:379-394 | in every run that has set the flag, a client's bridge enqueues again in some continuation iff it is past its look at the flag, the channel is open, and the queue has or gets room; so no send that starts later does |
| RouterTheorems.LookedBefore | internal/daemon/daemon.go:383-389 | a bridge past its look has been in this one send since a look that found the flag unset |
| RouterTheorems.SendMayPassFlag | internal/daemon/daemon.go:379-394 | a run in which a send enqueues after closed was set |
| RouterTheorems.LateRequestUnanswered | internal/daemon/daemon.go:341-342 | a run in which an accepted request, registered after the swap, is left without reply on a closed connection |
| RouterLeavers.SettledLeaversAreSafe | internal/daemon/helpers.go:95-139 | no run panics on a closed writeCh in which clients leave only when their requests are settled: refused, terminal frame handed to the writer, or registered after the swap |
| RouterLeavers.LeaverMayCrash | internal/daemon/helpers.go:82-139 | for every run with only settled leavers so far and every client that may leave now: some continuation with no further leaver panics iff one of its requests is not settled |
| RouterLeavers.UnterminatedIsUnsettled | internal/daemon/daemon.go:353-356 | on a live connection the owner of an accepted request is unsettled as long as the agent has sent only data or the reply to a file_stat for it |
| RouterLeavers.LeaverCrashes | internal/daemon/helpers.go:108-139 | a run that panics, in which a client leaves after its request was accepted |
| RouterTheorems.Progress | internal/daemon/helpers.go:82-139 | in every run in which no client has left, while a frame is in a pipe, channel, queue or hand, the daemon has a step that waits for nobody outside |
| RouterProofs.StepKeeps | internal/daemon/daemon.go:330-430 | every step of the connection keeps the invariant behind these theorems |
| Pool.HostConn.Register | internal/daemon/daemon.go:398-404 | a fresh channel is in the table for the id, and no two ids share a channel |
| Pool.HostConn.Die | internal/daemon/daemon.go:337-344 | requests may arrive before, between and after its parts: channels found by the swap get exactly one Error, those registered later are still in the table with nothing, and the connection is closed |
| Pool.HostConn.Route | internal/daemon/daemon.go:346-360 | only the id's channel gets the frame; a terminal frame takes the route away, any other leaves it |
| Pool.HostConn.FailAll | internal/daemon/daemon.go:366-377 | every channel of the table gets exactly one Error, in any order of iteration, and the table is empty |
| Pool.HostConn.Send | internal/daemon/daemon.go:383-394 | with any steps of others between the look and the select: the client's frame enters the queue iff true, never when the flag was set before, and its verdict is recorded as in the step system |
| Pool.HostConn.Offer | internal/daemon/daemon.go:384-393 | is the accepting or the refusing step of the bridge on the fields, and false on a closed channel, where the send would panic |
| Pool.HostConn.Close | internal/daemon/daemon.go:418-430 | with any steps of others between its halves: any number of calls close the channel once |
| Pool.Daemon.Lookup | internal/daemon/daemon.go:202-214 | the open connection of the host is the one returned; a failed start leaves the table alone; at most one open connection per host afterwards |
| Pool.Daemon.Died | internal/daemon/daemon.go:337-344 | with requests arriving in between, the connection ends closed, what it had is answered with one Error each, and the pool's invariant holds |
| Pool.Daemon.Shutdown | internal/daemon/daemon.go:102-108 | no connection is open afterwards, none is closed twice, and every channel that was open before is closed |
| RemoteDisk.Disk.MkdirAll | cmd/rsb-agent/files.go:209-212 | in every state on the way only missing ancestors have been added; on success the directory is there |
| Put.HandlePut | cmd/rsb-agent/files.go:196-278 | for every frame stream: frames taken, reply and final disk; at every moment the target of an atomic upload holds its old node or the whole payload, the latter iff the reply is Result, and a failure after the creation leaves no temporary file |
| Put.Receive | cmd/rsb-agent/files.go:225-256 | stops behind the first Done, has written exactly the payload of the chunks, skips anything else, and removes the file when it fails |
| Put.Commit | cmd/rsb-agent/files.go:258-277 | a checksum that differs or a failed rename leaves the target and no temporary file; otherwise the target is replaced in one step |
| Put.ResultIsComplete | cmd/rsb-agent/files.go:258-263 | whatever was lost, garbled or mixed in, a Result means the content whose checksum the client announced |
| Put.Session.FilePut | internal/client/files.go:184-229 | request, chunks of the file in order, and a last chunk with the checksum of all of them, which is missing iff the local file could not be opened or read |
| Resync.Run | cmd/rsb-agent/main.go:128-187 | the main loop with its disk gives the answers of the pure specification to uploads and file_stats, for some faults of the disk |
| Resync.RepliesAreOwn | cmd/rsb-agent/files.go:196-262 | for uploads in a row, each with or without a file_stat before it, every request gets its own answer, in order, for any faults, iff every upload with another one behind it was sent whole or had failed at the agent before |
| Resync.OwnFramesOnly | cmd/rsb-agent/files.go:225-255 | an upload that was sent whole, or fails early, consumes only its own frames, whatever follows |
| Resync.WholeIsStored | cmd/rsb-agent/files.go:225-277 | a whole upload on a sound disk succeeds and stores the bytes of the local file |
| Resync.StrayContent | internal/client/files.go:196-203 | after an upload whose local file did not open, the agent stores the next upload's content, another client's, under the first path and answers with the first id |
| Resync.StatIsSwallowed | internal/client/files.go:362-376 | a file_stat behind an upload that does not settle is never answered, whatever others send later |
| Sync.WalkVisits | internal/client/files.go:347-357 | the walk visits the files of the tree, all of them and no others |
| Sync.WalkOrderly | internal/client/files.go:347-357 | in name order no file is visited before a file whose temporary name it has, and no path is below another |
| Sync.UploadFile | internal/client/files.go:376-379 | client and put loop together: on success the remote file has content and time stamp, its temporary name is free, and nothing else changed but added directories |
| Sync.Elsewhere | cmd/rsb-agent/files.go:202-212 | a completed upload leaves every path that is not above its own as it was, except its temporary name, which is free afterwards |
| Sync.Sync | internal/client/files.go:335-388 | after a run without failures (times positive and settable) every file has the local size and mtime remotely, uploaded ones the local content; a file not uploaded had both at the start; a tree that matches is left alone; a dry run changes nothing and names exactly the files that differ in size or mtime, or are no files |
| Sync.SyncOne | internal/client/files.go:361-379 | a file is skipped iff a remote file of the same size and mtime is there at its turn; otherwise, but in a dry run, it is uploaded, with content and time, or fails |
| Sync.SyncTwice | internal/client/files.go:335-388 | the second of two runs uploads nothing |
| Sync.DryRunExact | internal/client/files.go:372-375 | the dry run names exactly the files uploaded by a run without failures, iff no differing file's temporary name is a file that is up to date |
| Sync.DryRunMisses | internal/client/files.go:372-375 | a tree and a remote directory on which the dry run is wrong |
| Cat.SelectMeans | cmd/rsb-agent/files.go:114-138 | the loop over lines picks the longest run of whole requested lines that fits the cap; truncated iff a requested line did not fit |
| Cat.FitsOnce | cmd/rsb-agent/files.go:130-134 | there is only one such run |
| Lines.TokensAreTexts | cmd/rsb/main.go:463-482 | of lines with LF or CR LF in any mixture, and a last one with none, the tokens are exactly the texts |
| Lines.BreaksExactly | cmd/rsb-agent/files.go:139-142 | a scan ends in an error iff somewhere a whole buffer holds no line feed |
| Cat.GetLines | cmd/rsb-agent/files.go:104-142 | line mode sends exactly the picked lines, then Done and Result, or an Error iff it ran into a line that is too long |
| Cat.GetWhole | cmd/rsb-agent/files.go:146-185 | for every split into reads, the prefix of the cap's length or the whole file; truncated iff the size is at least the cap |
| Cat.Arrives | cmd/rsb-agent/files.go:180-186 | what the agent sends up to its Result is what the client writes, and its last Done chunk carries the checksum of just that and the flag |
| Cat.ApplyCatLimits | cmd/rsb/main.go:454-484 | the local loop shows the lines that the same specification picks |
| Cat.FileGet | internal/client/files.go:130-176 | for any frames: what is written, the flag, and success iff a Result came and the checksum rule passes |
| Cat.PassedIsComplete | internal/client/files.go:161-169 | a download that passes is complete if its last Done chunk has come with the content's checksum and is not marked truncated |
| Cat.CompleteExactly | internal/client/files.go:161-169 | among all downloads with the same last Done chunk, or none, those that pass are the content iff that chunk is there, carries the content's checksum and is not marked truncated |
| Cat.WithoutDone | internal/client/files.go:161-169 | without a Done chunk, whatever chunks came are taken for the whole file: success, and no truncation reported |
| Cat.TruncatedIsUnchecked | internal/client/files.go:161-169 | a truncated download passes whatever chunks have been lost before its Done chunk |
| Cat.LocalAndRemote | cmd/rsb/main.go:387-439 | with a line range, local and remote cat both show the longest run of whole requested lines that fits, and both report truncation iff one did not, for every file, range and cap; only a too long line is an error remotely |
| Cat.NormalForm | cmd/rsb/main.go:463-483 | without limits a local file is shown as it is, like a remote one, iff it ends in a line feed, has no CR before one, and no line that is too long |
| Cat.WithoutRange | cmd/rsb/main.go:387-439 | without a line range local and remote cat show the same bytes iff the file, or its first cap bytes, consists of whole lines with a bare line feed that are not too long; with what each then reports |
| Cat.WholeFile | internal/client/files.go:130-176 | an unlimited download returns the file |
| Grep.RgParser.Parse | internal/client/grep.go:155-203 | prints the first matches up to the remaining number and empties the buffer, or all of them and keeps exactly what did not parse |
| Grep.ChunkStep | internal/client/grep.go:155-203 | a chunk that ends anywhere yields the matches of the lines it completes, and the buffer is what has come of the next line |
| Grep.ChunksAreIrrelevant | internal/client/grep.go:155-203 | for every way to cut complete output into chunks, exactly its matches come out and nothing is left in the buffer |
| Grep.SoundPrefixIsPrinted | internal/client/grep.go:155-203 | for every way to cut any output into chunks, all matches before the first line that is too long or otherwise unsound come out first |
| Grep.Grep | internal/client/grep.go:91-143 | for all frames: Done iff the first terminal frame is a Result, Failed iff an Error, Lost iff there is none, unless capped, which is iff max is reached; the note is the stderr text before the Result when nothing matched; prints the first max of what the chunks give; so of complete sound output exactly the first max matches (all, if max is not positive), in order, each once, and an empty buffer; a prefix of them when the output breaks off; and all before anything unsound |
| Grep.LongLineIsDropped | internal/client/grep.go:158-161 | a line that fills the scanner's buffer is lost with everything behind it, whether or not it is complete |
| Grep.TokensBeforeLong | internal/client/grep.go:158-161 | a scan of any whole lines gives exactly those before the first one that fills the buffer |
| Grep.LostExactly | internal/client/grep.go:155-203 | with sound lines before the first one that fills the buffer: every cut of the output into chunks prints all matches iff none sits at or behind that line |
| Grep.NextLineIsSwallowed | internal/client/grep.go:158-203 | when the output is cut inside a line that fills the buffer, the rest of that line stays in the buffer and the next line is lost with it |

## Left out

- JSON and base64: a codec that may refuse a frame and decodes what it encoded; a request body that does not parse appears only as a garbled chunk, and the daemon's re-marshalling (compaction, HTML escaping) is the identity.
- SHA-256: any function, without collisions where that matters; hex encoding is not modelled.
- Processes, ssh, docker and nsenter, PATH lookup: a process is a free choice of output, exit code and stdin reads; a failing container rewrite or lookup is an Error before the process starts.
- `cmd.Wait` runs before the output streamers are joined, so output may be lost there; only the order of what is written is claimed.
- Timeouts, cancellation and wall-clock time: an exit with a non-zero code at any moment stands for them; the client's inactivity timer and the daemon's shutdown timeout are not part of this model.
- The order in which same-session commands reach the session lock is free: the source does not order them by arrival either.
- File operations that read a session's directory without its lock: the shipped client sets no session on them.
- The file system beyond a map from paths to files (bytes, mtime) and directories: no links, modes, sizes of directories, outside writers; removing a temporary file that exists does not fail; path cleaning, `filepath.Join` and Windows paths are left to path sequences.
- `bufio.Scanner` is taken as its documented tokens: its buffer management for partial reads is not re-verified.
- `rgLineBuf` lives as long as the process: `Grep` says for any buffer what is printed and kept, but relates it to ripgrep's lines only when it starts empty, and proves it empty again for complete output or at the cap.
- `handleFileStat`, `ParsePath`, `parseLineRange`, flag parsing and `fileID`: they would only add easy members.
- CP, attach, Hello replay and `handshakeError`: plumbing around the operations above.
- Progress of the daemon's queues under slow or departed clients: only safety is proved there.
- Resync.Run: models only uploads and file_stats; other requests of the main loop are steps of the agent's machine.
- Sync of a single file onto the root directory itself, which has no name to upload to.
- Sync.Sync: assumes that the local files can be read and do not change; what an unreadable one does is in Resync.StatIsSwallowed: the next file_stat of the same sync is never answered.
- Router: refused Stdin and FileChunk frames are dropped without notice, as in the source; what a dropped chunk does to an upload is in Put.ResultIsComplete.
