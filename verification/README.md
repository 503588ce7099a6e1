# Verified models of the updater

The updater keeps the media player of a station up to date. It fetches control files, adverts and
music over FTP, decides when a station has reached a new revision, publishes the files to the
player, and runs as a service. This project models its hardest parts and proves what they promise.

| Part | Files |
|---|---|
| The FTP client engine: the reply-driven interpreter, its data connection and the queue of commands, whose signals re-enter each other; runs against a server that follows RFC 959 | `FtpTypes`, `FtpSpec`, `FtpRun`, `FtpControl`, `FtpLockstep`, `FtpScript`, `FtpTransfer`, `FtpDelivery`, `FtpQueue`, `FtpClient` |
| What the end of a command tells its user: `state()`, the cause of a failure, the fate of the queue, the login through a proxy | `FtpOutcome`, `FtpConnects`, `FtpProxy` |
| Where the engine stops to keep its promises, with runs and exact conditions: hung commands, early ends of listings, aborts at the wrong time, refused data connections | `FtpStalls`, `FtpProgress`, `FtpSession`, `FtpLeftover`, `FtpEarlyEnd`, `FtpAbort`, `FtpActive` |
| The assembler of single- and multi-line replies, and the reply format of section 4.2 of RFC 959 | `FtpReply`, `FtpReplyFormat` |
| Addresses in PORT, 227 and 229 (section 4.1.2 of RFC 959, section 3 of RFC 2428) | `FtpAddress` |
| Uploads | `FtpUpload`, `FtpDtp` |
| The hand-off of Windows service controls between threads | `ServiceHandoff`, `HandoffSafety`, `HandoffWaking`, `HandoffStatus`, `HandoffProgress`, `HandoffRaces` |
| The commands of the Unix service socket | `ServiceCommands`, `ServiceSocket` |
| The encryption of settings | `CryptSpec`, `SimpleCrypt` |
| The update cycle with its trusted files | `UpdateStore`, `UpdateCycle`, `UpdateHistory`, `DownloadManager` |
| The publication of adverts | `AdvertSync`, `AdvertContent` |
| Texts | `Text` |

How the files fit together:

- What the source does step by step to its fields is a class (`QFtp`, `ReplyReader`, `QFtpDtp`,
  `QtServiceSys`, `Crypt`, `CheckDownloadedContent`, `Manager`, `Content`). Its methods state their
  whole new state as a function of the old one, over `View()`. The lemmas are about these functions.
- Runs are sequences of events of user, network, server, threads or devices. A run is possible if
  each event is enabled where it comes; the main results hold for every possible run of any length.
- Synchronous signals are modelled as calls: `emit finished` and `emit error` call the queue, which
  calls the interpreter again before the first call has returned. A measure shows that this ends.
- Records keep a history for the statements (lines written with their answers, bytes on the wire,
  signals emitted). No branch of the modelled code reads it.

What the server is assumed to do is in `FtpRun`: `InOrder` and `Greets` (every line gets any number
of 1yz replies and one final reply, in order, and nothing unasked) hold for all results on runs.
`DownloadsComplete` asks for a lawful run besides: passive-mode commands, no abort, and replies as in
`StrictReply`, after section 5.4 of RFC 959: an accepted PASV or EPSV names an address, and a finished
transfer ends with 226 or 250. Both codes are the server's choice, but the engine holds back only 226
(and 250 for RETR) until the data connection has closed, so that downloads are complete only if a 250
to LIST or STOR does not come before that; `EarlyEndDecides` shows that this condition is exact
wherever a download can follow.

Where the code does not do what its documentation or its names promise, the model follows the code
and a lemma gives the case, as an exact condition where it is about runs: `AbortNeedsWaiting`,
`EarlyEndDecides`, `RefusedDataStalls`, `HungForever`, `RefusedEprt` and `ConnectEnds` for the engine,
`StreamExceedsTotal` for uploads, `PausedBeforeCallback` and `ControlAfterStopIsLost` for the Windows
service, `TailOutlivesSocket` and `CuttingDoesNotMatter` for the Unix service, `MadeExactly` for
ciphertexts that are accepted although no encryption makes them, `ExtendedReadsPort` for
a digit as delimiter (which section 3 of RFC 2428 allows), `UnreadManifestsAdvance` and
`RevisionIsSafe` (two missing files of one name) for the update cycle.

`dafny verify dfyconfig.toml` checks the whole project.

## Model

| member | source | states |
|---|---|---|
| `FtpLockstep.LockstepAlways` | src/qftp/qftp.cpp:835-1217 | after every run of client and server, the interpreter waits exactly when one written line has no processed final reply, and that line is `currentCmd`; every reply was used for the line that caused it, held replies and re-entrant sends included; around an ABOR there is one line more and the swallowed reply is the one to the ABOR |
| `FtpLockstep.SignalsAlternate` | src/qftp/qftp.cpp:1332-1364 | over every run `commandStarted` and `commandFinished` are strictly alternating pairs with equal ids that grow as enqueued; none finishes twice; the last signal is the start of the head of the queue exactly when that command runs |
| `FtpDelivery.LinesRefineScripts` | src/qftp/qftp.cpp:1092-1217 | for every finished command of every run, in passive and in active mode: the lines written and the lines left unsent make up its script, where an accepted EPSV or EPRT stands for PASV or PORT, a refused one is followed by it at once, and PASS is dropped after 230; all lines are written on success; only the last can have been refused, unless it is SIZE in Get, ALLO in Put, EPSV or EPRT; Close succeeds only in state Unconnected |
| `FtpDelivery.DownloadsComplete` | src/qftp/qftp.cpp:654-752 | in lawful passive-mode runs in which no LIST or STOR is ended with 250 while a data connection is up, every Get reported as successful had its data connection up and closed again, and its device holds exactly the bytes the server sent; RETR is never written before the data connection is up |
| `FtpEarlyEnd.EarlyEndDecides` | src/qftp/qftp.cpp:984-997 | that condition is exact: from every reachable state in which the reply to LIST or STOR is due, a 226, or a 250 with no data connection up, leaves all lawful continuations without incomplete downloads, whatever is queued; and if what is queued behind it, slots included, leads to a download, a 250 with the data connection up has a lawful continuation in which a download is reported as successful and its device has lost what the server sent |
| `FtpLeftover.OnWayLoses` | src/qftp/qftp.cpp:741-752 | with a data connection left over, any number of logins, simple and raw commands, modes, proxies and a Close with a new connection are worked off before the next Get, whose data are then lost |
| `FtpEarlyEnd.EarlyEndLoses` | src/qftp/qftp.cpp:984-997 | such a run exists from a new object on: connect, list() ended with 250, and a get() whose data are lost |
| `FtpQueue.QueueDrains` | src/qftp/qftp.cpp:2189-2288 | the mutual recursion over any number of SetTransferMode and SetProxy commands, those that the slots on commandFinished add meanwhile included, ends with one start and finish pair each, a single done(false), and nothing sent |
| `FtpQueue.OrderIsFifo` | src/qftp/qftp.cpp:2262-2288 | they finish in the order in which they were enqueued: first the queue, then what each slot added, numbered on |
| `FtpAbort.AbortNeedsWaiting` | src/qftp/qftp.cpp:858-874 | for every reachable state with a command in the queue, a command connection and no abort under way: abort() keeps every reply with its line and leaves no reply awaited in vain, in all runs that follow, if and only if a reply is awaited when it is called |
| `FtpAbort.AbortWhileIdle` | src/qftp/qftp.cpp:858-874 | an ABOR sent in Idle is answered, the answer ignored, and the abort state left armed |
| `FtpAbort.SwallowedReplyStalls` | src/qftp/qftp.cpp:999-1008 | with the abort state armed that way, the final reply to the next line is swallowed, and a reply is awaited although the server has answered everything |
| `FtpAbort.AbortedListForsaken` | src/qftp/qftp.cpp:858-874 | a run from a new object that ends so: any transfer aborted before its single shot fires |
| `FtpStalls.RefusedDataStalls` | src/qftp/qftp.cpp:1233-1242 | after a refused data connection, in every state that can follow, `waitForDtpToConnect` stays set, nothing is awaited but the reply to an earlier ABOR, no data connection is opened, and a command with lines to write hangs |
| `FtpStalls.HungForever` | src/qftp/qftp.cpp:893-897 | a command that waits for nothing that can still happen (the command connection is closed, or the interpreter is idle with no data connection being opened) never finishes, whatever follows, and no signal is emitted any more |
| `FtpProgress.FinishesUnlessHung` | src/qftp/qftp.cpp:835-1246 | in a lawful run without early ends, as long as the command connection is not closed, a running command can still finish, in some continuation, if and only if it is not hung in that sense |
| `FtpActive.RefusedEprt` | src/qftp/qftp.cpp:1128-1144 | a refused EPRT hangs the command for ever exactly over IPv6, where the engine itself writes it; over IPv4, where only a raw command of the user can send EPRT, it is followed by PORT |
| `FtpOutcome.EndsAreTold` | src/qftp/qftp.cpp:1091-1150 | over every run, what a finished command reports: login, with a line answered 230, has succeeded only in state LoggedIn; connectToHost has succeeded in Connected or, if hasty, in HostLookup, and failed in Unconnected; and a command that failed after writing a line had that line refused with a code other than 2yz or 3yz (or with 202), the line being neither SIZE in Get, ALLO in Put, EPSV nor EPRT, or had its data connection refused |
| `FtpOutcome.FailureCutsTheQueue` | src/qftp/qftp.cpp:2292-2364 | over every run: once a command has failed, nothing that was queued then is ever started or still queued, only what was enqueued from then on, by the slot on its commandFinished or later |
| `FtpOutcome.StateFitsConnection` | src/qftp/qftp.cpp:875-897 | over every run `state()` fits the command connection (Unconnected: closed; Connecting: being opened; Connected, LoggedIn: open; HostLookup: not closed; Closing: not being opened); LoggedIn only after a 230; a running close() is Closing until the connection is down; a running connectToHost over an open connection is Connected until its greeting |
| `FtpOutcome.EventsSetState` | src/qftp/qftp.cpp:875-920 | in every reachable state: the found host gives Connecting, the opened connection Connected, the closed one Unconnected (or ends a waiting Close), a refused one ends connectToHost in Unconnected; connectToHost and setTransferMode go back to trying EPSV and EPRT |
| `FtpOutcome.ExtendedFirst` | src/qftp/qftp.cpp:1177-1209 | over every run PASV is written over IPv6 only after EPSV or EPRT was refused, and over IPv4 EPSV and EPRT are written only if the user asked for them |
| `FtpOutcome.NotConnectedEnds` | src/qftp/qftp.cpp:835-848 | in every reachable state: when the single shot fires over a closed connection, a connection is refused or close() has ended, no command runs afterwards but connectToHost, as all others end at once |
| `FtpOutcome.AbortCuts` | src/qftp/qftp.cpp:858-874 | in every reachable state abort() takes back all that is queued behind the running command, sends ABOR, and closes the data connection of an upload and no other |
| `FtpConnects.ConnectEnds` | src/qftp/qftp.cpp:1001-1035 | a connectToHost succeeds in state Connected if and only if it was running before the event that ended it; otherwise that event, a greeting or a failure whose second report of `finished` meets it, has started it, and the state is HostLookup |
| `FtpConnects.SecondConnectIsHasty` | src/qftp/qftp.cpp:1001-1128 | a run in which that happens: connectToHost called twice before the first greeting |
| `FtpProxy.ProxiedLogin` | src/qftp/qftp.cpp:2199-2232 | for every proxy, host, port, user: the USER line goes out as the user alone without a proxy, else as user@host, with :port unless it is empty, 0 or 21 |
| `FtpControl.LiveStartNextCommand` | src/qftp/qftp.cpp:2189-2258 | starting the next command, with everything it re-enters, keeps the control invariant |
| `FtpControl.LivePiFinished` | src/qftp/qftp.cpp:2262-2288 | `_q_piFinished` keeps it, the empty queue and the waiting Close included |
| `FtpControl.LivePiError` | src/qftp/qftp.cpp:2292-2364 | `_q_piError` keeps it: SIZE and ALLO are forgiven, any other error clears both queues and pops the command |
| `FtpControl.LiveSendCommands` | src/qftp/qftp.cpp:835-848 | `sendCommands` keeps it whether or not the interpreter is idle |
| `FtpControl.LiveStartNextCmd` | src/qftp/qftp.cpp:1156-1217 | writing the next line keeps it: one line goes out, edited or not, or `finished` is reported |
| `FtpControl.LiveReact` | src/qftp/qftp.cpp:1102-1150 | the reaction to the new state keeps it, in Success, Idle and Failure |
| `FtpControl.LiveServe` | src/qftp/qftp.cpp:978-1150 | the handling of one reply keeps it and logs the reply against the line that caused it |
| `FtpLockstep.FinalRest` | src/qftp/qftp.cpp:978-1150 | after a final reply that is not held the client is at rest again: at most one line outstanding |
| `FtpLockstep.StepRest` | src/qftp/qftp.cpp:835-1246 | every event of user, network and server takes a client at rest to a client at rest |
| `FtpLockstep.RunRest` | src/qftp/qftp.cpp:835-1246 | so does every run |
| `FtpTransfer.ToldFinished` | src/qftp/qftp.cpp:2262-2288 | a command that finishes leaves an account that keeps to its script |
| `FtpTransfer.ToldError` | src/qftp/qftp.cpp:2292-2364 | so does one that fails |
| `FtpTransfer.RetriedTold` | src/qftp/qftp.cpp:1128-1144 | a refused EPSV is followed by PASV and the script goes on where it was |
| `FtpTransfer.RetriedPort` | src/qftp/qftp.cpp:1128-1217 | a refused EPRT is followed by PORT, and the script goes on where it was, or over IPv6 stays there |
| `FtpTransfer.DroppedTold` | src/qftp/qftp.cpp:1092-1100 | dropping PASS after 230 keeps to the script |
| `FtpTransfer.ServeTold` | src/qftp/qftp.cpp:978-1150 | the handling of one reply keeps the transcript of the running command and the ownership of its data connection |
| `FtpDelivery.StepKept` | src/qftp/qftp.cpp:641-1246 | every event keeps the transcript, the device contents and the history of finished commands |
| `FtpClient.QFtp.constructor` | src/qftp/qftp.cpp:1249-1288 | a new object is the initial state of the runs |
| `FtpClient.QFtp.Handle` | src/qftp/qftp.cpp:835-1246 | each event of user, network and server, given to its slots, takes the object the step of the run, and the object rests again, in lockstep with the server |
| `FtpClient.QFtp.AddCommand` | src/qftp/qftp.cpp:1289-1298 | the object refines the specification function: the command is enqueued and the single shot armed if it is the only one |
| `FtpClient.QFtp.StartNextCommand` | src/qftp/qftp.cpp:2189-2258 | the method with its calls refines the recursive specification |
| `FtpClient.QFtp.PiFinished` | src/qftp/qftp.cpp:2262-2288 | the method refines the specification, emitted signals included |
| `FtpClient.QFtp.PiError` | src/qftp/qftp.cpp:2292-2364 | the method refines the specification |
| `FtpClient.QFtp.PiConnectState` | src/qftp/qftp.cpp:2368-2376 | the method refines the specification: a waiting Close is finished by any state change |
| `FtpClient.QFtp.SendCommands` | src/qftp/qftp.cpp:835-848 | the method refines the specification |
| `FtpClient.QFtp.StartNextCmd` | src/qftp/qftp.cpp:1156-1217 | the method refines the specification |
| `FtpClient.QFtp.ProcessReply` | src/qftp/qftp.cpp:978-1150 | the method refines the specification and tells whether the reply was processed; what a 230 and a refusal lead to is `EndsAreTold` |
| `FtpClient.QFtp.ReadyRead` | src/qftp/qftp.cpp:921-970 | the reading loop over complete replies refines the specification |
| `FtpClient.QFtp.DtpClosed` | src/qftp/qftp.cpp:1219-1246 | the slot refines the specification: a held reply is processed when the data connection closes |
| `FtpClient.QFtp.SocketReadyRead` | src/qftp/qftp.cpp:654-724 | the slot refines the specification: data reach the device, are kept, or are discarded during an abort |
| `FtpClient.QFtp.ConnectionClosed` | src/qftp/qftp.cpp:893-897 | the slot refines the specification |
| `FtpClient.QFtp.Abort` | src/qftp/qftp.cpp:858-874 | the method refines the specification: ABOR is written, or the data connection is cut for STOR |
| `FtpReplyFormat.AssemblerInvertsFormat` | src/qftp/qftp.cpp:921-970 | any sequence of single- and multi-line replies, rendered per section 4.2 of RFC 959 and cut into deliveries in any way, is processed as exactly those codes and texts, in order, with nothing left over |
| `FtpReplyFormat.PiecesAreWhole` | src/qftp/qftp.cpp:921-970 | deliveries in pieces have the effect of the whole stream |
| `FtpReply.BegunIsNotEmpty` | src/qftp/qftp.cpp:921-970 | once a reply has begun `replyText` is empty exactly after its last line, so the code is not read again midway |
| `FtpReplyFormat.DrainIsOnLines` | src/qftp/qftp.cpp:921-970 | one call takes all complete lines of the buffer and no more |
| `FtpReply.ReplyReader.ReadCode` | src/qftp/qftp.cpp:930-944 | the digit loop refines the bounded scan and stops at the first digit out of range |
| `FtpReply.ReplyReader.ReadContinuation` | src/qftp/qftp.cpp:945-963 | the inner loop joins lines up to the last line of the reply, or runs out of lines |
| `FtpReply.ReplyReader.ReadyRead` | src/qftp/qftp.cpp:921-970 | the nested loops refine the line-by-line specification |
| `FtpAddress.PassiveReadsPort` | src/qftp/qftp.cpp:1055-1073 | the 227 parser returns every IPv4 host and 16-bit port written by the PORT code, in any text where no digit before it is followed by a comma |
| `FtpAddress.ExtendedReadsPort` | src/qftp/qftp.cpp:1074-1090 | the 229 parser returns the port if and only if the delimiter is not one of its digits (or the port is 0); so for every delimiter that is no digit |
| `FtpAddress.OctetsMakeAddress` | src/qftp/qftp.cpp:1185-1204 | the four masked octets make up the address |
| `FtpAddress.SearchSkipsQuiet` | src/qftp/qftp.cpp:1061-1062 | the leftmost match starts behind such text |
| `FtpUpload.UploadConserves` | src/qftp/qftp.cpp:396-434 | over every run the bytes handed to the socket are a front of the contents, in order; all of them when the end closed the socket without a read error; reported progress grows, ends with what has left the socket and, for files and arrays, never exceeds the total, which is their size |
| `FtpUpload.UploadNeverStalls` | src/qftp/qftp.cpp:396-434 | a started upload from a file always has bytes to flush, and each flush reads on or ends it |
| `FtpUpload.StreamExceedsTotal` | src/qftp/qftp.cpp:754-763 | for every source, device and stale flag: the reported progress keeps to the total in all runs if and only if the source is an array or its device is not sequential (for a sequential device the total is 0) |
| `FtpDtp.QFtpDtp.WriteData` | src/qftp/qftp.cpp:396-434 | the method refines the specification |
| `FtpDtp.QFtpDtp.SocketBytesWritten` | src/qftp/qftp.cpp:754-763 | the method refines the specification |
| `FtpDtp.QFtpDtp.SetBytesTotal` | src/qftp/qftp.cpp:306-311 | the method refines the specification |
| `FtpDtp.QFtpDtp.SocketConnectionClosed` | src/qftp/qftp.cpp:741-752 | the method refines the specification |
| `HandoffWaking.NoLostWakeUp` | src/qtservice/src/qtservice_win.cpp:541-601 | any number of handlers, any interleaving: whoever sleeps although its callback has run, STOP and SHUTDOWN included, is in the hands of a main thread that has not yet woken the sleepers; whoever sleeps otherwise has its event still to be served, unless the main thread has gone, which it does only after STOP or SHUTDOWN was served; nobody enters the handler before `controllerHandler` was created |
| `HandoffWaking.AsleepSinceWakeUp` | src/qtservice/src/qtservice_win.cpp:574-601 | after any steps a handler is asleep if and only if it went to sleep after the last wake-up |
| `HandoffSafety.CallbackBeforeStatus` | src/qtservice/src/qtservice_win.cpp:574-657 | with one control at a time RUNNING or PAUSED is set only after the callback of that control ran in the main thread |
| `HandoffStatus.StatusTellsTruth` | src/qtservice/src/qtservice_win.cpp:574-657 | with one control at a time: RUNNING and PAUSED agree with the last of start(), pause() and resume() that ran; until STOPPED is set, the status with all controls returned is RUNNING after STARTUP and CONTINUE, PAUSED after PAUSE and STOP_PENDING after STOP, whichever was called last, and during each of them it is its pending status; every control that has returned, but INTERROGATE and unknown ones, has had its callback |
| `HandoffStatus.StoppedAtTheEnd` | src/qtservice/src/qtservice_win.cpp:841-850 | when exec() has returned the status is STOPPED and stays so unless a handler is still to set its own |
| `HandoffSafety.StartFailsForGood` | src/qtservice/src/qtservice_win.cpp:803-830 | when the service is not announced in time or no application exists, start() has failed for good and no control is ever handled |
| `HandoffRaces.PausedBeforeCallback` | src/qtservice/src/qtservice_win.cpp:574-657 | for any set of controls: the final status of start, pause or continue can be set before its callback has run if and only if some other of the controls waits for its callback |
| `HandoffProgress.AllHandlersReturn` | src/qtservice/src/qtservice_win.cpp:541-850 | every run is at most as long as the measure of its start, and where it can go no further all handlers whose callbacks have run have returned, that of STOP or SHUTDOWN included; all others too, unless the main thread has gone: then those that went to sleep after the last wake-up stay asleep; if start() failed no handler was entered |
| `HandoffProgress.StepDecreases` | src/qtservice/src/qtservice_win.cpp:541-850 | every step of every thread lowers the measure |
| `HandoffRaces.GoneWakesNobody` | src/qtservice/src/qtservice_win.cpp:841-850 | nobody wakes a sleeper after the main thread has gone |
| `HandoffRaces.ControlAfterStopIsLost` | src/qtservice/src/qtservice_win.cpp:541-601 | for any set of controls: a control can be left asleep for ever if and only if it waits for its callback and some other control is STOP or SHUTDOWN |
| `HandoffSafety.StepKeepsInv` | src/qtservice/src/qtservice_win.cpp:541-850 | every step keeps the ownership of the mutex, the order of the start-up semaphores and the events of the sleepers |
| `ServiceCommands.CuttingDoesNotMatter` | src/qtservice/src/qtservice_unix.cpp:322-378 | how a stream is cut into deliveries makes no difference, between CR and LF too, if and only if no empty command is followed by another |
| `ServiceCommands.CalmCutsAgree` | src/qtservice/src/qtservice_unix.cpp:322-378 | such a stream has its commands carried out and answered in order, with the unfinished rest in the cache |
| `ServiceCommands.OneReplyEach` | src/qtservice/src/qtservice_unix.cpp:353-360 | one answer for each command, in order |
| `ServiceCommands.CommandsDo` | src/qtservice/src/qtservice_unix.cpp:327-352 | terminate stops unless the service cannot be stopped, pause and resume act if it can be suspended, alive is answered true, num: processes its number, anything else is answered false |
| `ServiceCommands.SentIsRead` | src/qtservice/src/qtservice_unix.cpp:363-378 | commands sent with CR LF behind each are read as exactly these, in order, and what follows is left over; `AnyStreamIsSent`: every stream is of this form |
| `ServiceCommands.TailOutlivesSocket` | src/qtservice/src/qtservice_unix.cpp:363-378 | the cache of a closed socket stays: a later socket at its address is answered like a new one if and only if nothing was left |
| `ServiceSocket.QtServiceSys.SlotReady` | src/qtservice/src/qtservice_unix.cpp:322-361 | the loop refines the specification for its socket and leaves the other sockets alone |
| `ServiceSocket.QtServiceSys.GetCommand` | src/qtservice/src/qtservice_unix.cpp:369-378 | the first complete command is cut from the cache, or nothing |
| `ServiceSocket.QtServiceSys.Dispatch` | src/qtservice/src/qtservice_unix.cpp:327-352 | the branches refine the table of commands; what terminate, pause and resume do and answer is stated outright |
| `CryptSpec.DecryptUndoesEncrypt` | src/managetools/simplecrypt.cpp:79-254 | decryption with the same key returns every text that was encrypted, under every compression and protection mode and random byte |
| `CryptSpec.AcceptsExactlySeals` | src/managetools/simplecrypt.cpp:179-254 | decryption reports no error for exactly the ciphertexts that are sealed with this key under some flags byte, and for bare headers; an unknown version exactly for an empty text or a first byte other than 3 |
| `CryptSpec.MadeExactly` | src/managetools/simplecrypt.cpp:79-254 | which of them encryption with this key can make: a ciphertext is the result of some encryption if and only if it is accepted, has a body, carries one of the six flag bytes that encryption sets and, if flagged as compressed, holds what compressing its text gives |
| `CryptSpec.OddFlagsAreAccepted` | src/managetools/simplecrypt.cpp:179-254 | so a text sealed under any other flags byte is accepted although no encryption gives it |
| `CryptSpec.ChangeSpreadsOnce` | src/managetools/simplecrypt.cpp:205-214 | changing one byte of the body changes exactly that byte and the next of the decoded text |
| `CryptSpec.CipherLayout` | src/managetools/simplecrypt.cpp:79-137 | the ciphertext byte by byte, for all modes: 3, the flags 1, 2 and 4, and the body, each byte of it xored with its key byte and the ciphertext byte before |
| `CryptSpec.BodyParts` | src/managetools/simplecrypt.cpp:95-117 | the body: the random byte, nothing or the checksum with its higher byte first or the 20-byte hash, and the text, compressed or not |
| `CryptSpec.CipherTellsKey` | src/managetools/simplecrypt.cpp:79-137 | for bodies of at least 8 bytes two 64-bit keys give the same ciphertext only if they are equal |
| `CryptSpec.OtherKeyShifts` | src/managetools/simplecrypt.cpp:205-214 | decoding with another key changes byte i by the xor of the two key bytes i % 8, so exactly where these differ |
| `CryptSpec.OtherKeyGarbles` | src/managetools/simplecrypt.cpp:179-254 | without digest and compression the wrong key is not noticed: no error, and the text changed so |
| `CryptSpec.DecodeUndoesEncode` | src/managetools/simplecrypt.cpp:119-128 | the chained loops are inverse to each other |
| `CryptSpec.EncodeUndoesDecode` | src/managetools/simplecrypt.cpp:205-214 | in both orders, so the body is a bijection that keeps lengths |
| `CryptSpec.AutoIsShortest` | src/managetools/simplecrypt.cpp:89-133 | Auto gives at most the text, 3 bytes and the digest, and never more than another mode |
| `CryptSpec.KeyPartsRecombine` | src/managetools/simplecrypt.cpp:60-71 | the eight key parts make up the 64-bit key, so no two keys share them |
| `SimpleCrypt.EncodeInPlace` | src/managetools/simplecrypt.cpp:119-128 | after the loop in place c[i] = p[i] ^ keyParts[i % 8] ^ c[i-1], stated on the array itself |
| `SimpleCrypt.DecodeInPlace` | src/managetools/simplecrypt.cpp:205-214 | after the loop p[i] = c[i] ^ c[i-1] ^ keyParts[i % 8], the bytes before the loop being meant by c |
| `SimpleCrypt.Crypt.SplitKey` | src/managetools/simplecrypt.cpp:60-71 | the nested loops refine the key parts |
| `SimpleCrypt.Crypt.EncryptToByteArray` | src/managetools/simplecrypt.cpp:79-137 | the method refines the specification, the missing key included |
| `SimpleCrypt.Crypt.DecryptToByteArray` | src/managetools/simplecrypt.cpp:179-254 | the method refines the specification, every error included |
| `SimpleCrypt.Exchange` | src/managetools/simplecrypt.cpp:79-254 | two objects with the same key and any modes: what one encrypts the other decrypts |
| `UpdateHistory.RevisionIsSafe` | src/updater/downloadmanager.cpp:121-152 | over all runs of cycles, told from the events alone: the local revision changes only at the end of a cycle, to a positive revision of the server that differs; if no two files that the manifests name and that are neither trusted nor with the player share a name, exactly when each of them was delivered in this cycle (its download ended without timeout and error, or with all bytes the server has); if two share one, never with all of them delivered |
| `UpdateHistory.TrustFollowsEvents` | src/updater/downloadmanager.cpp:228-305 | over all runs: content becomes trusted at the end of its download if and only if it is staged and either no timeout occurred and no error is reported, or some progress told that all bytes were received and the staged file has just that size; a control file becomes DOWNLOAD_OK under the first condition, else DOWNLOAD_FAIL; nothing else changes |
| `UpdateHistory.ManifestsAreFresh` | src/updater/content.cpp:428-460 | adverts come from a manifest only if adverttable, and music only if chanels, was delivered in this very cycle |
| `UpdateHistory.EveryFileIsTried` | src/updater/downloadmanager.cpp:351-395 | at the end of a cycle every missing file was looked up in vain or its download was begun, unless another has its name |
| `UpdateHistory.AdvancedIsDelivered` | src/updater/downloadmanager.cpp:133-152 | when the revision follows, every missing advert is staged byte by byte as its download in this cycle delivered it, whatever came after |
| `UpdateHistory.StartFiles` | src/updater/content.cpp:351-372 | a cycle begins with the five control files |
| `UpdateCycle.SkippedFileBlocks` | src/updater/downloadmanager.cpp:351-446 | a file that the server did not list keeps the revision back |
| `UpdateHistory.StagedIsDelivered` | src/updater/downloadmanager.cpp:194-256 | at the end of a download of a control file or advert the staged file is exactly the pieces that came since it began, and there is none if none came |
| `UpdateCycle.UnreadManifestsAdvance` | src/updater/downloadmanager.cpp:121-152 | when neither manifest could be read the second half of the cycle is empty, however it is begun, and the revision advances |
| `UpdateCycle.NothingReadAdvances` | src/updater/downloadmanager.cpp:121-152 | such a cycle exists from every state at rest: nothing at all is downloaded and the revision of the server becomes the local one |
| `UpdateCycle.StepKeeps` | src/updater/downloadmanager.cpp:121-446 | every event keeps the lists apart, the files ahead clean, and trust equal to downloads of this cycle |
| `UpdateStore.CheckAllIsTrust` | src/updater/checkdownloadedcontent.cpp:56-69 | the check passes exactly when all files are trusted, and then removes nothing |
| `UpdateStore.CollectMisses` | src/updater/content.cpp:408-473 | an entry is listed exactly when it is neither trusted nor with the player |
| `UpdateStore.CollectAccounts` | src/updater/content.cpp:127-145 | listed adverts are no longer staged; listing trusts nothing and adds nothing |
| `UpdateStore.CollectRemoves` | src/updater/checkdownloadedcontent.cpp:14-54 | reading a manifest removes exactly the staged adverts that it names and that are not trusted |
| `UpdateStore.CheckAllRemoves` | src/updater/checkdownloadedcontent.cpp:56-69 | the check removes the first file that is not trusted, and no other |
| `UpdateStore.SameNamesHide` | src/updater/contentmanager.cpp:121-156 | all listed files are downloaded if and only if no two have the same name |
| `DownloadManager.CheckDownloadedContent.CheckFile` | src/updater/checkdownloadedcontent.cpp:14-34 | the query refines the specification, its clean-up included |
| `DownloadManager.CheckDownloadedContent.CheckAllFiles` | src/updater/checkdownloadedcontent.cpp:56-69 | the loop with its early exit refines the specification |
| `DownloadManager.CheckDownloadedContent.CollectContent` | src/updater/content.cpp:435-442 | the loop over a manifest refines the specification |
| `DownloadManager.Manager.Start` | src/updater/content.cpp:351-372 | the control directories and the storage of their states are emptied |
| `DownloadManager.Manager.StartContent` | src/updater/downloadmanager.cpp:121-131 | the second half of the cycle starts with the missing entries |
| `DownloadManager.Manager.Conclude` | src/updater/downloadmanager.cpp:133-152 | the method refines the end of the cycle |
| `DownloadManager.Manager.DownloadFinished` | src/updater/downloadmanager.cpp:228-256 | the method refines both ways to trust a file, which `TrustFollowsEvents` states over all runs |
| `DownloadManager.Manager.DownloadProgress` | src/updater/downloadmanager.cpp:284-305 | the method refines the rule for a full download |
| `AdvertSync.ManifestReads` | src/updater/content.cpp:430-441 | a manifest is read back as exactly the names written into it, in order: names without semicolon and line feed, alone on a line or followed by a semicolon and more, with blank lines anywhere |
| `AdvertSync.AnyTextIsManifest` | src/updater/content.cpp:430-441 | every text is such a manifest |
| `Text.SplitRestores` | src/updater/content.cpp:431 | the parts of a split text do not hold the separator, and put together with it they are the text |
| `Text.SplitReads` | src/updater/content.cpp:431 | no other parts do |
| `AdvertSync.SyncSettles` | src/updater/content.cpp:113-120 | a second synchronisation finds nothing to do |
| `AdvertSync.AbsentNamesAreHarmless` | src/updater/content.cpp:276-299 | the matching loop with removeAt finds exactly the files that the manifest does not name, although absent names come first and names repeat |
| `AdvertSync.ExcessIsUnlisted` | src/updater/content.cpp:278-299 | the same for any sources in which files occur once |
| `AdvertSync.MoveAllPublishes` | src/updater/content.cpp:147-224 | moving the trusted files one after the other, in any order, publishes them |
| `AdvertContent.Content.FilesFromDirWithCheck` | src/updater/content.cpp:314-330 | the loop lists exactly the trusted staged files, once each |
| `AdvertContent.Content.CopyToDestination` | src/updater/content.cpp:147-224 | the loop refines the publication |
| `AdvertContent.Content.CollectContentFromFile` | src/updater/content.cpp:408-447 | the loop lists the names that the manifest names, as `ManifestReads` tells, and those absent |
| `AdvertContent.Content.TakeStandart` | src/updater/content.cpp:279-288 | the first standard file of a name is taken out |
| `AdvertContent.Content.DeleteExcessFiles` | src/updater/content.cpp:226-312 | after the call the directory holds exactly its files that the manifest names; nothing changes without manifest or command file |
| `AdvertContent.Content.Sync` | src/updater/content.cpp:113-330 | with manifest and command file the player ends with exactly the files of the manifest that it had or that were staged and trusted, the latter as staged, else with all of both; untrusted files stay staged; trust bits of moved files are gone; the result tells whether a file was moved |

## Left out

Weaker or conditional statements:

- LockstepAlways: ABOR is used only while a reply is awaited (`AbortNeedsWaiting` is the exact condition), its two replies come in separate deliveries, no 1yz crosses it, and the command connection is not reopened before its reply.
- SignalsAlternate: slots may enqueue from commandFinished and at any time between events, not from done(): after a greeting or a fatal error the interpreter reports `finished` once more, and a command that a slot on done() has just enqueued would finish without having started.
- LinesRefineScripts: raw lines are a verb and an argument, as the engine tests prefixes only; the address that PORT and EPRT are written with is not compared.
- DownloadsComplete: passive mode and no abort so far.
- EarlyEndDecides: that data are lost is claimed for queues, slots included, that lead to a download into a device or to their end by logins, simple and raw commands without data lines, modes, proxies and Close with a new connection; another listing or upload before the download, or a download without a device, opens its own data connection in place of the one left over, and nothing is claimed there. The other half holds for every queue.
- OnWayLoses: the same queues.
- FinishesUnlessHung: lawful runs, and a command connection that is not closed; that some continuation finishes the command does not say that every one does.
- RefusedEprt: no abort is under way.
- EndsAreTold: what a 230 to a line of a command other than login does to `state()` is not followed over the rest of that command.
- ExtendedFirst: not since when EPSV or EPRT was refused; that connectToHost and setTransferMode go back to them is `EventsSetState`.
- ProxiedLogin: only the USER line; whom the socket connects to is not modelled.
- AssemblerInvertsFormat: replies are not held back; holding is part of `FtpSpec.ReadLoop`, which reads complete replies.
- UploadConserves: a read that fails or a connection that the peer cuts ends the upload early; then only the order of what was sent is claimed. A sequential device that becomes readable while no data socket of this command exists is not modelled.
- CallbackBeforeStatus: one control at a time, as the service control manager sends them; without that it is false (`PausedBeforeCallback`).
- StatusTellsTruth: one control at a time, for the same reason; after STOPPED was set a control that came behind STOP can still set its own status.
- AllHandlersReturn: no spurious wake-ups.
- DecryptUndoesEncrypt: compression, checksum and hash are any functions with uncompress(compress(x)) = x and a 20-byte hash.
- AdvancedIsDelivered: adverts; music is staged in directories that may hold older pieces.
- RevisionIsSafe: each LIST gives at most one listInfo; file operations succeed; what syncContent leaves behind is arbitrary here.
- Manager.StartContent: the entries of the manifests are free parameters of the event, empty if the manifest is not readable; that they are the entries that the staged manifest's bytes name is not modelled (the reading of one manifest is `Content.CollectContentFromFile`).
- StagedIsDelivered: not for music, whose manifest is checked before its directory is set, so that stale pieces may stay in front.
- Content.Sync: adverts only; for music the deletion goes through one shared `destination` variable. File operations succeed.

Not modelled:

- The in-band error of a listing (`QFtpDTP::err` is never set), parseDir and its dates, `qurlinfo.cpp`.
- Sockets, timers, threads, settings and files themselves: events, maps and sets. A connectToHost on a socket that is not closed does nothing; deleting an open data socket closes it.
- A listener that cannot be opened, the blocking waitForConnection.
- The digits of other scripts that QChar::digitValue accepts, and signs and blanks that QString::toInt accepts.
- The synchronous closing of the data socket by an empty upload: in the engine the data connection of STOR closes in a later event.
- Reported service statuses (pSetServiceStatus): only the status itself; the SCM database calls; the event filter for the end of a session.
- The conversion of each delivery on the service socket to a QString by itself: a zero byte ends it, and a character of several bytes that is cut by the delivery is read wrongly, so that `CuttingDoesNotMatter` is about single-byte characters other than zero.
- The conversion of the number of a "num:" command; the client side of the local socket; encodeName.
- base64 and UTF-8 around the encryption; the quality of its random byte.
- The copying of control files to the player (REVISION), reports, login data, the HTTP account exchange, logging, events to the player, station settings.
