# Berth, verified

Berth is a self-hosted deploy platform made of a hub and any number of agents. This project models the
parts of it whose guarantees span several functions, often across both processes, and proves those
guarantees with Dafny 4.11. `dafny verify dfyconfig.toml` checks everything.

Concurrent code is modelled as a state machine: one label for every lock acquisition, file-system
operation, row operation or channel operation, any sequence of enabled labels being a run, and theorems
quantified over all runs. Code that one task runs on its own is a class or a method with loops, proved
against a function or against the very labels of the machine. The store's requests, deletion apart, exist
as machine steps only: each constructor of `Store.Task` is a point between two operations of one request,
and `Store.Act` is the operation that follows it; `StoreRequests` says what each request comes to.

| files | what they model |
|---|---|
| `Multiplexer`, `PrivateChannel`, `MultiplexerProofs`, `ChannelHistory`, `SessionTheorems`, `SessionOutcomes`, `AgentLink` | many calls sharing one hub/agent connection |
| `Store`, `StoreProofs`, `StorePointers`, `StoreOrigins`, `StoreRequests`, `Storage` | rows, directories, the write lock, crashes and the startup sweeps |
| `Trees`, `ZipShipping`, `ZipPaths`, `ZipRoundTrip`, `Uploads`, `AgentFs` | zipping, chunking, reassembling and unpacking a directory |
| `DeploymentLogs`, `LiveTail` | the rotating log, its pump and its live tail |
| `CommandStream`, `CommandDrain` | a command's output from the agent's container to the hub's log |
| `LoginLimiter`, `LoginRaces`, `LoginBounds` | the login lockout, racing attempts, and the sweeper |
| `EnvVars`, `EnvStore`, `EnvRaces` | validated, encrypted environment variables, and updates that race |
| `GitFetch` | clone threads, their permits and their staging directories |
| `Containers`, `Activation`, `Deletion` | starting, stopping, swapping and deleting containers |
| `Reconcile`, `ReconcileTheorems` | the pass made when an agent connects |
| `Wrappers`, `Protocol` | shared datatypes |

## What the code does not keep

Thirteen properties a reader might expect are false of the code as it stands. Each is stated with its exact
condition, or an exact bound, and with a run or an input that shows it.

- **A call can outlive its session.** `fail_all_pending` clears the pending calls, the streams and the
  connection under three separate locks, and its comment promises that every waiting caller is unblocked. A
  streaming call that registers and sends between the second and the third step is never closed
  (`StreamLeftBehindIff`, `ReaderHangsIff`, `StreamCanBeLeftBehind`), and a one-shot call that registers
  after the first and reads the connection before the third waits for its timeout (`OneShotLeftBehindIff`,
  `CallerHangsIff`, `OneShotCanBeLeftWaiting`).
- **Deleting the active deployment is possible.** The guard compares the id's text, the lookup parses it,
  so another spelling of the active id passes the guard and leaves the pointer dangling
  (`DeleteKeepsPointersIff`, `DanglingPointerExample`). With canonical ids the pointer is always valid.
- **A deletion can strand a container.** The comment on the function says that none may be left behind.
  The row goes first, so whatever fails after it - the agent is not connected, or the id was spelled
  differently and the directory is not found - leaves the container running without a row, and a retry
  finds nothing to delete (`ContainerGoesIff`, `RetryingFindsNothing`,
  `DeletionWithoutAgentStrandsTheContainer`, `DeletionCanStrandAContainer`).
- **Re-activating the active deployment can stop it.** By the same comparison of texts, activating the
  active deployment under another spelling of its id stops the container it has just confirmed, unless a
  read or the stop itself fails first (`SuccessServesTheNewIff`, `ReactivatingCanTakeItselfDown`).
- **Reconciliation does not always restart an app.** An install container that outlives the agent's own
  delayed removal, say because the agent restarted, blocks every later start of its app by its name, and a
  pass only removes those of pending deployments (`StartSucceedsIff`, `WhatShouldRunRunsIff`,
  `BlockedStaysBlocked`, `LeftoverInstallBlocksForEver`).
- **The largest limit is no limit.** The archive check sums sizes with saturation, so a limit of 2^64-1
  admits everything (`AdmittedIff`, `LargestLimitAdmitsMore`).
- **A file whose name ends in a backslash is lost.** Wherever in a tree it lies, it arrives as an empty
  directory; every other tree arrives as it is (`TreeArrivesIff`, `MarkedFileIsLost`).
- **An upload can be left behind for ever.** The handler of an upload waits on a channel whose sender lives
  in a map the handler itself keeps alive, so the channel never closes and the agent's own error for that
  case is never reported. If a read fails on the hub, or the session ends, before the final chunk is
  delivered, the handler, its entry and its file in `tmp/` stay (`UploadLeftBehindIff`, `LeftBehindForEver`,
  `UploadCanBeLeftBehind`).
- **A failed upload starts over in the middle.** If a handler fails while chunks are still to come, the next
  chunk starts a second handler, which is handed only the rest of the file (`WholeFileIsUnpackedIff`,
  `OnlyTheRestCanBeUnpacked`).
- **Shipping can fail for the hub and succeed on the agent.** A handler runs on when the session ends or the
  hub's patience does. If only the reply to an upload is lost, the hub reports an error and the content is
  in place (`ShipRunDeployment`, `UnpackedAfterTheSessionIff`, `ToldItFailed`, `UnpackingOutlivesTheSession`).
- **A replaced secret can come back.** An update of an app reads its row and writes it later without the
  lock, so a secret it keeps is the one it has read, whoever has replaced it meanwhile (`WriteIsCurrentIff`,
  `ReplacedSecretComesBack`).
- **Ten failures are not the limit for attempts that race.** The check and the record are two calls, so k
  attempts in flight can get 2k+17 failures into an interval of the window's length, and any number of them
  if k is not bounded (`FailuresAreBounded`, `TheBoundIsReached`, `RacingIsUnbounded`).
- **The retry hint can be one second short.** The lockout includes its last second, so waiting exactly
  the stated minutes can still be refused (`WaitingExactlyIsEnoughIff`, `StatedMinutesCanBeShort`).

## Assumptions

Ids drawn by the code are fresh, the 64-bit request counter does not wrap, an update of a missing row
inserts nothing, and a channel delivers in order. An archive is its ordered list of entries, and the codec
between that list and bytes is an argument of which only two facts are used: decoding what was encoded gives
it back, and an archive without its beginning does not open. Of the cipher only the first is used. Parsing
an id is an argument of which only its values are used. An archive entry whose name ends in a slash or a
backslash is read as a directory, which is how released versions of the zip library read it. Released
versions of that library refuse to zip a file of 4 GiB or more unless told of it beforehand, which the hub
does not do; such a tree is one whose zipping fails. A chunk counts as written when its write returns,
although the runtime may finish it later. Removing an upload's file works. Whether any other file-system,
database, container or network operation succeeds is an input wherever the code has a branch for it.

## Model

| member | source | states |
|---|---|---|
| `MultiplexerProofs.SessionRefinesPrivateChannels` | berth-hub/src/agent_link.rs:60-223 | For every interleaving of calls, inbound messages, timeouts, ends and the three clearing steps, and every id, what that id sees is a run of a private channel with nobody else on it. |
| `MultiplexerProofs.StepSimulates` | berth-hub/src/agent_link.rs:60-132 | A step that concerns a call is the same step of its private channel, from the same position to the same position. |
| `MultiplexerProofs.StepStutters` | berth-hub/src/agent_link.rs:60-132 | A step about one id changes nothing another id can see. |
| `ChannelHistory.RunAgrees` | berth-hub/src/agent_link.rs:60-223 | A channel's routing flags, inbox and answer are exactly what the labels of its run say. |
| `SessionTheorems.IdsAreExclusive` | berth-hub/src/agent_link.rs:99-101 | Pending and stream ids are disjoint, below the counter, and of the right kind. |
| `SessionTheorems.StreamGetsExactlyItsMessages` | berth-hub/src/agent_link.rs:60-75 | A stream receives, in order, exactly the inbound messages with its id resolved between registration and end. |
| `SessionTheorems.OneShotGetsTheFirst` | berth-hub/src/agent_link.rs:77-81 | A one-shot call gets at most one payload, and it is the first inbound one with its id after registration. That it is returned is `SessionOutcomes.AnsweredCallsReturnTheirAnswer`. |
| `SessionTheorems.ReturningLeavesNoEntry` | berth-hub/src/agent_link.rs:103-180 | However a call returns, no entry of its id is left in either table. |
| `SessionOutcomes.AnsweredCallsReturnTheirAnswer` | berth-hub/src/agent_link.rs:172-179 | Over every later run: a caller whose reply is in its slot returns that reply, and one whose channel is closed returns that the agent is gone, unless its own timeout strikes first. |
| `SessionOutcomes.OutcomesAreExplained` | berth-hub/src/agent_link.rs:103-180 | What a call returns says what its labels say: a timeout exactly if its timer struck, an end exactly if its reader stopped, a reply only if it looked and found it, unavailable if its send was refused. |
| `SessionOutcomes.FeedersDropOnlyIfRefused` | berth-hub/src/agent_link.rs:213-219 | The feeder of a bidirectional call takes the call's entries out of the tables exactly if a send of its own was refused. |
| `SessionOutcomes.ACallReturnsItsReply` | berth-hub/src/agent_link.rs:141-180 | From every reachable open session a one-shot call can be made, sent and answered, and returns its reply, with the tables as before. |
| `SessionOutcomes.AStreamOpens` | berth-hub/src/agent_link.rs:186-223 | From every reachable open session a streaming or bidirectional call gets to read, with one entry more. |
| `SessionOutcomes.AStreamIsFed` | berth-hub/src/agent_link.rs:60-75 | A message for a reading stream goes to the end of its inbox and changes nothing else. |
| `SessionOutcomes.ACallCanTimeOut` | berth-hub/src/agent_link.rs:175-178 | A waiting call can always time out, and takes its entry with it. |
| `SessionOutcomes.WithoutConnectionACallIsRefused` | berth-hub/src/agent_link.rs:103-112 | Without a connection a call of any kind is refused and leaves the tables as they were. |
| `SessionOutcomes.ARefusedSendEndsTheCall` | berth-hub/src/agent_link.rs:114-132 | A call whose send is refused returns that the agent is gone and has no entry left. |
| `SessionTheorems.FailAllReleasesTheRegistered` | berth-hub/src/agent_link.rs:90-97 | Every call registered before the three clearing steps start is released by them: its entry is gone, a one-shot receiver is closed, and it never returns a reply. |
| `SessionTheorems.LateCallsAreRefused` | berth-hub/src/agent_link.rs:103-112 | A call that reads the connection after the session is over never sends and, once returned, has left no entry. |
| `SessionTheorems.StreamLeftBehindIff` | berth-hub/src/agent_link.rs:93-97 | After the stream table is cleared, an id is in it exactly if its call registered later and nothing has removed it since. |
| `SessionTheorems.StreamCanBeLeftBehind` | berth-hub/src/agent_link.rs:93-97 | Such a run exists: a session can end with a stream registered between the second and third clearing step, and no later run closes it unless its own reader does. |
| `SessionTheorems.StrandedForEver` | berth-hub/src/agent_link.rs:83-97 | Whatever runs after the end of a session, a stranded stream keeps its entry and gets nothing, until its own reader ends it. |
| `SessionTheorems.OneShotLeftBehindIff` | berth-hub/src/agent_link.rs:93-97 | After the pending table is cleared, an id is in it exactly if its one-shot call registered later and has not taken the entry out again. |
| `SessionTheorems.OneShotCanBeLeftWaiting` | berth-hub/src/agent_link.rs:157-180 | Such a run exists: a session can end with a one-shot call waiting that nothing but its own timeout releases in any later run. |
| `SessionTheorems.WaitingEndsInTimeout` | berth-hub/src/agent_link.rs:172-179 | A call left waiting on a session that is over is never answered or refused; if it returns, it returns a timeout. |
| `SessionTheorems.CallerHangsIff` | berth-hub/src/agent_link.rs:90-97 | On a session that is over, a one-shot caller still waiting with nothing to observe is exactly one whose entry was registered after the pending table was cleared. |
| `SessionTheorems.ReaderHangsIff` | berth-hub/src/agent_link.rs:90-97 | On a session that is over, a stream's reader does not see the end exactly if its entry was registered after the stream table was cleared and nobody has removed it. |
| `SessionTheorems.TheEndIsFinal` | berth-hub/src/agent_link.rs:60-97 | Once a reader sees the end, no later run brings it anything more or takes the end back. |
| `SessionTheorems.HangsUntilGivenUp` | berth-hub/src/agent_link.rs:203-219 | A reader that hangs does so, and gets nothing, until it gives up or its own call's feeder finds that it cannot send. |
| `SessionTheorems.LateStreamIsStranded` | berth-hub/src/agent_link.rs:186-197 | From any open session with a streaming call about to register, that call can slip in between the clearing steps and be left reading. |
| `AgentLinks.AgentLink.Resolve` | berth-hub/src/agent_link.rs:60-81 | Resolving one message performs the lookup steps of the state machine: stream first, then the pending call, else nothing. |
| `AgentLinks.AgentLink.EndStream` | berth-hub/src/agent_link.rs:86-88 | Removes exactly this stream, whoever asks; for its reader it is the end of the call. |
| `AgentLinks.AgentLink.FailAllPending` | berth-hub/src/agent_link.rs:93-97 | Performs the three clearing steps in order. |
| `AgentLinks.AgentLink.RunSession` | berth-hub/src/grpc.rs:51-68 | From connection to end, with no call in between, the session is a run of the machine and leaves tables and connection empty; `SessionTheorems` says what calls in between add. |
| `AgentLinks.AgentLink.CallStreamingReply` | berth-hub/src/agent_link.rs:186-197 | Returns a registered id, or is refused with both tables as they were. |
| `AgentLinks.AgentLink.Outbound` | berth-hub/src/agent_link.rs:103-112 | Hands any kind of call the connection, or removes the caller's own entries from both tables. |
| `AgentLinks.AgentLink.Send` | berth-hub/src/agent_link.rs:114-132 | A send by a call: refused, it removes the caller's own entries and nothing else. |
| `AgentLinks.AgentLink.SendFed` | berth-hub/src/agent_link.rs:213-219 | The same for a send by a bidirectional call's background feeder. |
| `StoreProofs.EveryRowHasItsDirectory` | berth-hub/src/storage.rs:627-703 | At every step of every interleaving of the store's requests, crashes included, each app row has its directory and each deployment row its app and its nested directory. |
| `StoreProofs.AtMostOnePendingPerApp` | berth-hub/src/storage.rs:949-995 | No reachable state has two pending deployments of one app, although statuses change outside the lock. |
| `StoreProofs.ActKeepsRowsHaveDirs` | berth-hub/src/storage.rs:832-995 | One step of any request, with or without failure, keeps every row's directory. |
| `StoreProofs.ActKeepsOnePending` | berth-hub/src/storage.rs:1145-1167 | One step of any request keeps at most one pending deployment per app. |
| `StoreOrigins.EveryRowIsAsked` | berth-hub/src/storage.rs:627-1167 | Under every interleaving, read off the requests of the run: an app's row is as its creation asked, a deployment is of the app its creation named, failed only if a request failed it, ready only if it was uploaded or marked ready, and active only if that was asked. |
| `StoreOrigins.RowsGoAsAsked` | berth-hub/src/storage.rs:832-865 | A deployment's row goes only by a request that deletes it or its app. |
| `StoreOrigins.AppNamesAreUnique` | berth-hub/src/storage.rs:648-658 | No two apps have the same name in any reachable state. |
| `StoreRequests.RequestsGoThrough` | berth-hub/src/storage.rs:627-1282 | From every reachable state that serves with the lock free, any request can run to its end, frees the lock, and leaves what the following rows say. |
| `StoreRequests.CreateAppAlone` | berth-hub/src/storage.rs:645-703 | Creating an app adds its row and its directory if the name is free, and else does nothing. |
| `StoreRequests.DeleteAppAlone` | berth-hub/src/storage.rs:832-870 | Deleting an app takes its row, its deployments' rows, and its directory with all in it, and nothing else. |
| `StoreRequests.UploadAlone` | berth-hub/src/storage.rs:880-945 | An upload adds a ready deployment with its directory and makes it the active one. |
| `StoreRequests.CreatePendingAlone` | berth-hub/src/storage.rs:949-995 | A pending deployment is created exactly for an app that is deployed from git and has none. |
| `StoreRequests.EditAlone` | berth-hub/src/storage.rs:1120-1167 | Marking ready or failed, or recording the commit, changes just that of the one row named, if it is the app's. |
| `StoreRequests.ActivateAlone` | berth-hub/src/storage.rs:1220-1241 | Activating sets the one pointer if there is such a deployment of the app, and else does nothing. |
| `StoreRequests.DeleteDeploymentAlone` | berth-hub/src/storage.rs:1243-1282 | A deletion takes the row unless the text is that of the active id, and the directory that the text names. |
| `StoreRequests.FailedUploadLeavesNothing` | berth-hub/src/storage.rs:880-940 | An upload that fails before its row is in leaves rows and directories as they were. |
| `StoreRequests.FailedCreationAddsNoRow` | berth-hub/src/storage.rs:668-690 | A creation that fails adds no row, and which step fails says what is left for the sweeps. |
| `StoreRequests.FailedDeletion` | berth-hub/src/storage.rs:1263-1280 | A deletion that fails has done nothing before the row is gone, and leaves the directory or its remains after it. |
| `StoreRequests.StartupGetsThrough` | berth-hub/src/main.rs:106-109 | Wherever the hub stopped, a crash, the sweeps and a start lead to a state that serves the same rows over a clean tree. |
| `StorePointers.ActiveAlwaysNamesARow` | berth-hub/src/storage.rs:1220-1270 | If deletions spell ids canonically, in every reachable state each active pointer names an existing row of the same app. |
| `Storages.SweepsRestoreTheTree` | berth-hub/src/storage.rs:53-143 | From any reachable state the startup sweeps make the directory sets equal the row sets, empty `tmp/`, and remove no directory that a row needs. |
| `Storages.RunKeepsNested` | berth-hub/src/storage.rs:912-918 | Deployment directories always lie inside an existing app directory. |
| `Storages.StartupIsPossible` | berth-hub/src/storage.rs:53-143 | What startup needs of rows and directories holds wherever the hub was stopped. |
| `Storages.Storage.Startup` | berth-hub/src/main.rs:106-109 | Succeeds exactly if clearing `tmp/`, every listing and every removal it needs succeed, and then directories and rows match exactly; the first failure stops it with only orphans gone, so that it can be started again. |
| `Storages.Storage.SweepOrphanedDirs` | berth-hub/src/storage.rs:65-100 | Succeeds exactly if the listings and the removals it needs do; then it leaves exactly the directories that have rows, and counts what it removed. Otherwise only orphans are gone. |
| `Storages.Storage.SweepOrphanedDeploymentDirs` | berth-hub/src/storage.rs:102-143 | The same for the deployment directories of one app. |
| `Storages.Storage.DeleteDeployment` | berth-hub/src/storage.rs:1243-1282 | Which error comes when, and what is gone by then, for every failure of the database and the file system. |
| `Storages.DeleteStepsAlone` | berth-hub/src/storage.rs:1250-1268 | The request's separate steps, run without interference, are the sequential deletion. |
| `Storages.DeleteKeepsPointersIff` | berth-hub/src/storage.rs:1252-1261 | A deletion leaves every active pointer valid if and only if it does not spell the active deployment's id non-canonically. |
| `Storages.DanglingPointerExample` | berth-hub/src/storage.rs:1252-1261 | A concrete database and spelling for which deleting leaves the pointer dangling. |
| `Trees.DirSizeBytes` | berth-hub/src/storage.rs:1169-1181 | The recursive size is the sum of all file lengths of the tree. |
| `ZipShipping.ZipWriter.AddDirToZip` | berth-hub/src/agent_fs.rs:151-175 | Appends the entries of the tree in listing order, a directory before its contents. |
| `ZipShipping.ZipDir` | berth-hub/src/agent_fs.rs:142-149 | The archive is the entries of the whole tree. |
| `ZipShipping.CheckArchive` | berth-agent/src/zip_extract.rs:19-27 | The first pass fails exactly for an escaping path or a saturated total over the limit, else returns the total. What a path that escapes is, is `ZipPaths.AdmittedNameIff`. |
| `ZipShipping.Destination.ExtractEntries` | berth-agent/src/zip_extract.rs:32-46 | Writes entries in order up to the first one the file system refuses. |
| `ZipShipping.Destination.UnpackZip` | berth-agent/src/zip_extract.rs:12-49 | A rejected archive writes nothing; an admitted one is extracted in order and reports its total. What that means for the files is `ZipPaths`. |
| `ZipShipping.AdmittedIff` | berth-agent/src/zip_extract.rs:23-27 | The saturating comparison admits exactly the archives whose true size is within the limit, except that a limit of 2^64-1 admits everything. |
| `ZipShipping.LargestLimitAdmitsMore` | berth-agent/src/zip_extract.rs:23-27 | Two entries declaring more than 2^64-1 bytes pass under that limit. |
| `ZipShipping.FailureIsFinal` | berth-agent/src/zip_extract.rs:32-46 | Nothing is written after the first entry that fails. |
| `ZipPaths.AdmittedNameIff` | berth-agent/src/zip_extract.rs:19-27 | A name is admitted if and only if it holds no NUL, does not start at the root, and walking it from any directory that has a parent never leaves that directory. |
| `ZipPaths.NothingIsWrittenOutside` | berth-agent/src/zip_extract.rs:12-49 | Whatever an admitted archive changes is a place one of its entries comes by, and wherever the destination lies, that place is inside it. |
| `ZipPaths.ClimbingOutIsRefused` | berth-agent/src/zip_extract.rs:19-22 | An archive with `../x` is refused. |
| `ZipPaths.ComponentsSplit` | berth-agent/src/zip_extract.rs:51-55 | The components of a name are those before a slash and those after it. |
| `ZipPaths.MakeDirsIs` | berth-agent/src/zip_extract.rs:37-42 | Making the directories on the way succeeds exactly if no file is in the way, leaves what is there alone, and adds just the missing folders. |
| `ZipPaths.ExtractingAFileIs` | berth-agent/src/zip_extract.rs:43-46 | Extracting a file succeeds exactly if its way is free and its place is no folder; it puts its content there and leaves everything else alone. |
| `ZipPaths.TreeBytesAreHeld` | berth-hub/src/agent_fs.rs:157-173 | The size of a tree, the size its archive declares and the bytes its entries hold are the same number. |
| `ZipRoundTrip.EntriesAdmissible` | berth-hub/src/agent_fs.rs:157-173 | Every entry of a tree's archive stays inside the destination, and their sizes add up to the size of the tree. |
| `ZipRoundTrip.ExtractsTree` | berth-agent/src/zip_extract.rs:32-46 | Extracting a tree's entries, in any listing order, into a place with room adds exactly what arrives of the tree: each file whose name ends in a backslash has become an empty directory. |
| `ZipRoundTrip.ListingOrderIsInvisible` | berth-hub/src/agent_fs.rs:157-173 | Two listings with the same entries in any order, at every level, give the same files and the same size. |
| `ZipRoundTrip.TreeArrivesIff` | berth-agent/src/zip_extract.rs:32-46 | Over all trees: what was zipped unpacks without error, and to the tree itself if and only if no file at any level has a name that ends in a backslash. |
| `ZipRoundTrip.MarkedFileIsLost` | berth-agent/src/zip_extract.rs:37-46 | A concrete tree with such a file, which arrives as an empty directory whatever it held. |
| `ZipRoundTrip.ShipTree` | berth-agent/src/zip_extract.rs:12-49 | Within the limit any tree arrives as `TreeArrivesIff` says, empty directories included, with its size reported; over the limit nothing is written. |
| `Uploads.ChunkFile` | berth-hub/src/agent_fs.rs:100-121 | However reads are split, the chunks are non-empty and at most 64 KiB, spell the file, and end in one empty final chunk; a failed read cuts them short without one. |
| `Uploads.ReceiveZip` | berth-agent/src/handlers.rs:386-400 | Gets a file exactly if it can be created, a final chunk comes and every chunk up to it can be written, and then it is just those; it waits exactly if nothing fails, no final chunk comes and the channel stays open. |
| `Uploads.UploadAlone` | berth-agent/src/handlers.rs:386-400 | One upload arrives byte for byte or not at all, and with no fault it arrives; the receiver is left waiting exactly if a read cut the upload short and the agent's own disk failed nothing. |
| `Uploads.ConcurrentUploadsReassemble` | berth-agent/src/main.rs:174-212 | With distinct request and deployment ids, under any interleaving that keeps each id's order, with uploads cut short, refused writes and the end of the session: an id starts one handler more than fail of it at most, and if none fails what is unpacked is exactly the source file. |
| `Uploads.WholeFileIsUnpackedIff` | berth-agent/src/main.rs:185-211 | Anything unpacked belongs to a complete upload, and it is the whole file if and only if no handler of the upload failed; a second handler has only the chunks after that. |
| `Uploads.OnlyTheRestCanBeUnpacked` | berth-agent/src/main.rs:207-211 | Such a run exists: the first handler cannot create its file, and a second one unpacks the rest. |
| `Uploads.UploadLeftBehindIff` | berth-agent/src/main.rs:191-211 | Once nothing more can happen to an upload, its handler, map entry and file are left behind - and else are all gone - if and only if it was started, its final chunk was not delivered and its last handler met no error; a complete upload without error has been unpacked whole. |
| `Uploads.LeftBehindForEver` | berth-agent/src/main.rs:191-211 | No later run, the end of the session included, changes anything about such an upload. |
| `Uploads.EveryUploadSettles` | berth-agent/src/handlers.rs:340-400 | From every reachable state an upload comes to rest by its own steps, without another failure. |
| `Uploads.UploadCanBeLeftBehind` | berth-agent/src/main.rs:191-211 | A concrete run that ends so: a read fails after the first chunk. |
| `Uploads.UnpackedAfterTheSessionIff` | berth-agent/src/main.rs:199-211 | After the session, an upload without error is still unpacked whole if and only if its final chunk was delivered. |
| `Uploads.UnpackingOutlivesTheSession` | berth-agent/src/main.rs:199-211 | Any complete upload has a run in which the session ends before its file is even created, and it is unpacked whole. |
| `AgentFs.UnpackFresh` | berth-agent/src/zip_extract.rs:12-49 | Unpacking into an empty directory succeeds exactly for archives that fit and extract. |
| `AgentFs.AgentStore.ExtractAndPlace` | berth-agent/src/fs_ops.rs:45-67 | Content appears under its final name complete or not at all; the scratch directory is gone except when the archive could not be opened. |
| `AgentFs.AgentStore.DeleteDeploymentDir` | berth-agent/src/fs_ops.rs:11-23 | A directory is there whole or not at all, success means it is gone, a missing one is a success, and a failed removal leaves remains in `tmp/` only. |
| `AgentFs.ShipRunDeployment` | berth-hub/src/storage.rs:1090-1118 | For every fault on the hub, on the way and on the agent, a second handler included: the agent has all that arrives of the hub's tree or none of it - the tree itself exactly if no file's name ends in a backslash - and the hub is told of success exactly if the tree was placed and the reply gets through. When nothing fails it is placed if and only if it is within the limit and there is room. |
| `AgentFs.ToldItFailed` | berth-hub/src/agent_link.rs:172-179 | For every tree within the limit: if only the reply is lost, the hub is told of a failure and the agent has the content. |
| `DeploymentLogs.LogRegistry.TryRegister` | berth-hub/src/deployment_logs.rs:70-87 | Registers exactly if nobody is registered for the deployment. |
| `DeploymentLogs.TryNew` | berth-hub/src/deployment_logs.rs:122-145 | At most one pump per deployment; a new one is registered and has its file opened for its kind. |
| `DeploymentLogs.LogPump.Push` | berth-hub/src/deployment_logs.rs:150-173 | Rotates, writes and counts as specified, and broadcasts the chunk whatever the disk does. |
| `DeploymentLogs.WhatAPushLeaves` | berth-hub/src/deployment_logs.rs:150-199 | For every kind and every failure: what a push leaves in both files, and that nothing written before is lost but by rotation. |
| `CommandDrain.OtherLogsAreWhole` | berth-hub/src/deployment_logs.rs:122-145 | Every log but the run log starts over and then holds all that is pushed, however much. |
| `DeploymentLogs.LogPump.Drop` | berth-hub/src/deployment_logs.rs:176-180 | Frees the deployment's registration and no other. |
| `DeploymentLogs.StepKeeps` | berth-hub/src/deployment_logs.rs:150-199 | Opening, pushing and closing keep the counter exact and the backlog a suffix of everything pushed. |
| `DeploymentLogs.RunLogIsRetained` | berth-hub/src/deployment_logs.rs:122-223 | Over any number of pumps and pushes, at least the last megabyte is kept, the backlog is a suffix of all bytes pushed, and no file exceeds the cap by a whole chunk. |
| `LiveTail.LiveTailHasNoGap` | berth-hub/src/routes/api.rs:633-658 | With push split into write and broadcast and the reader into subscribe and read: the backlog goes back to the first byte or over a full log file, and with the live stream covers everything from there, under every interleaving, while the pump writes and after it has closed. |
| `LiveTail.NoFinalBytesAreMissed` | berth-hub/src/deployment_logs.rs:60-67 | Once the pump a reader follows has closed, every byte pushed from the backlog's start to the pump's end is in backlog or live stream, the last ones included. |
| `LiveTail.AReaderCanComeMidPush` | berth-hub/src/deployment_logs.rs:60-67 | A run in which a reader comes between the write and the broadcast of a push, gets both its backlog and everything live, and sees its pump close. |
| `LiveTail.StepKeepsLive` | berth-hub/src/deployment_logs.rs:62-66 | What a reader has received is a contiguous stretch of the pushed bytes from its subscription on. |
| `CommandStream.LogsThenOneResult` | berth-agent/src/handlers.rs:79-118 | Under every interleaving of command, log pump and forwarder the replies are logs in order and then at most one result; with the link up the result follows every chunk, even of a pump that outlived the command. |
| `CommandStream.EveryCommandCanFinish` | berth-agent/src/handlers.rs:79-118 | From every reachable state with the link up, a command can come to its end, with everything it produced and then its result sent. |
| `CommandStream.PumpsCanOutliveTheirCommand` | berth-agent/src/handlers.rs:88-113 | A run in which a pump produces after its command has returned, and its chunk still comes before the result. |
| `CommandStream.ALostLinkLosesTheResult` | berth-agent/src/handlers.rs:88-118 | A run in which the link fails and neither the log nor the result arrives. |
| `CommandStream.StepConserves` | berth-agent/src/handlers.rs:88-113 | No step loses or reorders a chunk in the channel while the link is up. |
| `CommandStream.StreamContainerLogs` | berth-agent/src/handlers.rs:277-305 | One chunk per read up to the first failed read, then one empty final chunk. |
| `CommandDrain.DrainCommandOutput` | berth-hub/src/containers.rs:52-86 | Pushes exactly the log chunks before the first other reply, answers by that reply, ends the stream and drops the pump on every exit. |
| `CommandDrain.LeadingIs` | berth-hub/src/containers.rs:59-74 | The number of chunks drained is the only one with logs before it and something else, or the end, after it. |
| `CommandDrain.VerdictIsOkIff` | berth-hub/src/containers.rs:59-86 | A drain succeeds exactly on a positive result of its own command behind nothing but its own log chunks, and says when a result was empty or missing. |
| `CommandDrain.ErrorsAreRead` | berth-hub/src/containers.rs:28-46 | The agent's errors are told apart by kind and keep their message. |
| `CommandDrain.RunCommand` | berth-hub/src/containers.rs:90-157 | Whatever happens, and whatever steps other tasks take on the link and the registry while it reads, both end as the others left them without an entry of this call; a pump that was registered holds exactly the drained chunks. |
| `CommandDrain.FollowRunLog` | berth-hub/src/containers.rs:242-273 | Pushes the chunks up to the first final one, and on every exit leaves link and registry as the others made them without an entry of its own. |
| `CommandDrain.CommandArrives` | berth-hub/src/containers.rs:52-86 | From the container to the hub: however many replies arrive, the hub logs a prefix of what was produced and answers with the command's own outcome or that none came; if all arrive, everything was logged. |
| `CommandDrain.LogArrives` | berth-hub/src/containers.rs:261-270 | Following a container's log delivers every chunk the agent read, in order. |
| `LoginLimiter.Limiter.CheckLoginLockout` | berth-hub/src/auth.rs:50-62 | Refuses exactly with ten failures in a live window, and says how many minutes remain. |
| `LoginLimiter.Limiter.RecordFailedLogin` | berth-hub/src/auth.rs:65-87 | Counts into the live window or opens a new one. |
| `LoginLimiter.Limiter.SweepExpiredLoginAttempts` | berth-hub/src/auth.rs:111-117 | Removes exactly the expired entries. |
| `LoginLimiter.Limiter.Login` | berth-hub/src/routes/auth_routes.rs:37-60 | One request checks first and then records, clears or does neither; a locked-out address is refused even with the right password. |
| `LoginLimiter.LoginAnswers` | berth-hub/src/routes/auth_routes.rs:37-60 | Which answer a request gets, exactly when, and what it leaves of the table: nothing for a success, a count for a wrong password, everything as it was otherwise. |
| `LoginLimiter.TenWrongPasswordsLockOut` | berth-hub/src/auth.rs:43-87 | Nine wrong passwords leave an address free and ten lock it out for 15 minutes and no longer; no other address is concerned. |
| `LoginLimiter.LoginKeepsOneAtATime` | berth-hub/src/routes/auth_routes.rs:42-60 | Login requests taken in turn keep to the discipline the bounds assume. |
| `LoginLimiter.LockedOutUntilTheWindowRollsOver` | berth-hub/src/auth.rs:43-62 | Once locked out, no check passes and no counter changes until the window has rolled over, whatever else runs. |
| `LoginLimiter.WaitingIsEnough` | berth-hub/src/auth.rs:56-61 | One second more than the stated minutes is always enough. |
| `LoginLimiter.WaitingExactlyIsEnoughIff` | berth-hub/src/auth.rs:59-61 | Exactly the stated minutes are enough if and only if the remaining time is not a whole number of minutes. |
| `LoginLimiter.StatedMinutesCanBeShort` | berth-hub/src/auth.rs:59-61 | A concrete case: told 15 minutes, still refused after exactly 15 minutes. |
| `LoginBounds.AtMostNineteenFailures` | berth-hub/src/auth.rs:50-87 | With attempts taken one at a time, any closed 900-second interval without a success from an address holds at most 19 of its failures. |
| `LoginRaces.FailuresAreBounded` | berth-hub/src/routes/auth_routes.rs:42-60 | With at most k attempts between their check and their record, any such interval holds at most 2k+17 failures. |
| `LoginRaces.TheBoundIsReached` | berth-hub/src/routes/auth_routes.rs:42-60 | For every k, a run with k attempts in flight reaches that number. |
| `LoginRaces.RacingIsUnbounded` | berth-hub/src/routes/auth_routes.rs:42-60 | Without a limit on attempts in flight there is none on failures: any number can be recorded at one moment. |
| `LoginRaces.OneAtATimeIsFlown` | berth-hub/src/routes/auth_routes.rs:42-60 | Attempts taken one at a time are never more than one in flight, so 19 is the case k = 1. |
| `LoginBounds.NineteenFailuresCanHappen` | berth-hub/src/auth.rs:50-87 | Nineteen is reached by a legal run. |
| `LoginBounds.WindowHoldsAtMostTen` | berth-hub/src/auth.rs:65-87 | The counter is exactly the number of failures since its window opened and the last success, and at most ten. |
| `LoginBounds.SweeperIsInvisible` | berth-hub/src/auth.rs:97-117 | Removing all sweeps from any run with a monotone clock changes no decision and no recorded window. |
| `LoginBounds.LockoutLifts` | berth-hub/src/auth.rs:50-62 | A refused address is admitted after waiting as told plus one second, whatever other addresses and the sweeper do. |
| `EnvVars.ValidateEnvVarInputs` | berth-models/src/lib.rs:266-277 | Reports the first input that is no identifier or repeats a key, if there is one. |
| `EnvVars.ValidMeansDistinctIdentifiers` | berth-models/src/lib.rs:253-277 | Validation passes exactly for distinct keys of letters, underscores and, from the second place on, digits; an error names the first key at which it fails. |
| `EnvVars.ResolveOkIff` | berth-hub/src/storage.rs:523-553 | A list can be stored exactly if each input can, and what is stored for each is its text, its new ciphertext, or the ciphertext there was. |
| `EnvVars.DecryptOkIff` | berth-hub/src/storage.rs:557-571 | A list can be decrypted exactly if each of its secrets can, and then it is those texts. |
| `EnvVars.ResolveRefines` | berth-hub/src/storage.rs:523-553 | What is stored decrypts to the plaintext list with kept secrets filled in; a rejected list would be rejected in plaintext too, or the cipher failed on it. |
| `EnvVars.DecryptOfRefined` | berth-hub/src/storage.rs:557-571 | Decrypting a stored list that holds a plaintext list gives that list. |
| `EnvStore.AppTable.CreateApp` | berth-hub/src/storage.rs:627-703 | A rejected creation leaves the table unchanged; an accepted one adds the one row. |
| `EnvStore.AppTable.UpdateApp` | berth-hub/src/storage.rs:737-787 | A rejected update leaves the row unchanged; an accepted one changes what was given and keeps the rest. |
| `EnvStore.CreationAnswers` | berth-hub/src/storage.rs:627-703 | When a creation succeeds, what its row is, and which error is given exactly when. |
| `EnvStore.UpdateAnswers` | berth-hub/src/storage.rs:737-787 | When an update succeeds, that it changes what was given and keeps the rest, and which error is given exactly when. |
| `EnvStore.NamesStayUnique` | berth-hub/src/storage.rs:648-775 | After any sequence of calls all app names are slugs and differ. |
| `EnvStore.DecryptGivesThePlaintextList` | berth-hub/src/storage.rs:557-571 | After any sequence of creates, updates and deletes, decrypting an app's row gives its plaintext list, and keys are unique. |
| `EnvStore.RefusedIffUnacceptable` | berth-hub/src/storage.rs:737-757 | Unless the cipher fails, an update is refused over its variables exactly when the plaintext list would be. |
| `EnvRaces.RacingRowsDecrypt` | berth-hub/src/storage.rs:737-787 | However updates interleave, a row decrypts to a plaintext list with unique keys: that of the last update to write it, with kept secrets as that update read them. |
| `EnvRaces.UndisturbedIsUpdate` | berth-hub/src/storage.rs:737-787 | An update whose write follows its read at once is the update made at one moment. |
| `EnvRaces.WriteIsCurrentIff` | berth-hub/src/storage.rs:751-757 | An update stores the list that one made at the moment of its write would store, if and only if no secret it keeps was replaced or removed since its read. |
| `EnvRaces.ReplacedSecretComesBack` | berth-hub/src/storage.rs:751-784 | A run of two updates after which a replaced secret is back, which neither order of the two gives. |
| `GitFetch.AtMostTwoCloneThreads` | berth-hub/src/routes/api.rs:370-412 | At most two clone threads exist at any step of any number of jobs, timed-out ones included. |
| `GitFetch.PermitsAreConserved` | berth-hub/src/state.rs:163-170 | Free permits and holders always add up to two; when every job has returned both permits are free. |
| `GitFetch.EveryExitIsClean` | berth-hub/src/routes/api.rs:356-470 | Every exit leaves no thread, no permit held and no staging directory; success implies a finished clone that was not interrupted. |
| `GitFetch.SuccessIsTheWholeWay` | berth-hub/src/routes/api.rs:356-470 | A job that reports success has, in order, cloned, built if it is to be built, moved its files, been shipped if it is to run, activated and been marked; one that reports failure has met one; its clone is told to stop exactly if time ran out. |
| `GitFetch.SuccessIsPossible` | berth-hub/src/routes/api.rs:356-470 | A job of every mode can succeed. |
| `GitFetch.TimingOutIsPossible` | berth-hub/src/routes/api.rs:400-412 | A run in which a clone takes too long, is told to stop, and nothing of it is left. |
| `GitFetch.StagingOutlivesItsThread` | berth-hub/src/routes/api.rs:389-412 | No step removes a staging directory while its clone thread is there. |
| `GitFetch.ActKeepsPermits` | berth-hub/src/routes/api.rs:370-387 | Each step of a job hands its permit on or back, never losing or duplicating it. |
| `Containers.StartRunContainer` | berth-agent/src/containers.rs:130-208 | Takes the engine through exactly the specified states, whichever call fails or loses its reply. What those amount to is `StartSucceedsIff`, `StartSucceeds` and `StartTouchesOnly`. |
| `Containers.RunCommandToCompletion` | berth-agent/src/containers.rs:246-315 | The same for a one-shot command's container, whose removal is scheduled exactly if the command was waited for. What that amounts to is `FailedInstallLeavesNothing` and `CleanupUnblocksIff`. |
| `Containers.CleanupUnblocksIff` | berth-agent/src/containers.rs:335-344 | A start blocked by an old install container is unblocked by its delayed removal, exactly if that goes through. |
| `Containers.StartSucceedsIff` | berth-agent/src/containers.rs:130-208 | For every fault: a start succeeds exactly if each call it needs does and no install container is in its way. |
| `Containers.StartErrorsAre` | berth-agent/src/containers.rs:130-208 | Which error a failing start gives, exactly when. |
| `Containers.CommandEnds` | berth-agent/src/containers.rs:246-315 | When a one-shot command succeeds, which error it gives otherwise, and the state its container is left in. |
| `Containers.LeftBehindUnscheduledIff` | berth-agent/src/containers.rs:246-344 | A command's container is left behind without a scheduled removal exactly if the engine lost the reply to its creation or did not confirm its start. |
| `Containers.LostRepliesTakeEffect` | berth-agent/src/containers.rs:130-365 | A refused call changes nothing, and a lost reply hides an effect that took place. |
| `Containers.StartWithoutFaults` | berth-agent/src/containers.rs:130-208 | Without faults a start does all of its work, or, blocked by an install container, none. |
| `Containers.StopAndRemove` | berth-agent/src/containers.rs:347-365 | The same for stopping and removing. What that amounts to is `StopIsSafe` and `RepeatingIsHarmless`. |
| `Containers.StartTouchesOnly` | berth-agent/src/containers.rs:130-208 | At every step of a start, every container but the named one and its install container is as it was. |
| `Containers.StartSucceeds` | berth-agent/src/containers.rs:126-142 | A start never takes a running container down, and reports success only with the container up. |
| `Containers.FailedInstallLeavesNothing` | berth-agent/src/containers.rs:126-130 | If the install command fails, nothing of the container's name is ever there. |
| `Containers.StopIsSafe` | berth-agent/src/containers.rs:346-365 | Stopping touches only the named container and succeeds only with it gone. |
| `Containers.StopEnds` | berth-agent/src/containers.rs:346-365 | When stopping succeeds, and what it leaves of the container otherwise. |
| `Containers.RepeatingIsHarmless` | berth-agent/src/containers.rs:126-142 | Repeating a start or a stop that succeeded succeeds and changes nothing. |
| `Activation.Hub.ActivateWithContainers` | berth-hub/src/routes/api.rs:478-535 | Takes engine and pointer exactly through the specified states, whichever request or read fails. What those amount to is `NeverBothDown` and `SuccessServesTheNewIff`. What it answers is `ActivationAnswers`. |
| `Activation.Hub.ActivateDeployment` | berth-hub/src/storage.rs:1220-1241 | Moves the pointer of an existing app to an existing deployment of it, or changes nothing. What that means for the app is `SuccessServesTheNew` and `StorePointers.ActiveAlwaysNamesARow`. |
| `Activation.SuccessMovesThePointer` | berth-hub/src/routes/api.rs:478-535 | For every app, with or without containers: success means the deployment exists and its app's pointer, and no other, was moved to it; failure moves none. |
| `Activation.ActivationAnswers` | berth-hub/src/routes/api.rs:478-535 | For every app and fault: when an activation succeeds, and which error it gives exactly when. |
| `Activation.NamesAreDistinct` | berth-hub/src/containers.rs:24-26 | Container names determine app and deployment, and no run container has an install container's name. |
| `Activation.NeverBothDown` | berth-hub/src/routes/api.rs:471-535 | With a canonical id, at every step the container that was running or the new one is. |
| `Activation.FailedStartChangesNothingElse` | berth-hub/src/routes/api.rs:471-507 | A failed start leaves the pointer and every other container as they were. |
| `Activation.SuccessServesTheNew` | berth-hub/src/routes/api.rs:509-535 | Success with a canonical id leaves the new id active and its container running. |
| `Activation.SuccessServesTheNewIff` | berth-hub/src/routes/api.rs:520-532 | For every fault: after success the container runs if and only if the call was not a re-activation of the active deployment under another spelling of its id, or a read failed or the stop was not sent or refused. |
| `Activation.SuccessStopsThePrevious` | berth-hub/src/routes/api.rs:509-532 | After success the container that served before is gone exactly if both reads and the stop go through. |
| `Activation.ReactivatingCanTakeItselfDown` | berth-hub/src/routes/api.rs:520-532 | A concrete family of such calls: success is reported and the container is gone. |
| `Deletion.Hub.DeleteDeployment` | berth-hub/src/storage.rs:1243-1282 | The hub's half of a deletion, over text ids: which error comes when, and what is gone by then, a failing removal after the move included. What that amounts to is `RefusalChangesNothing`, `DirectoryGoesIff` and `DeletionsAgree`. |
| `Deletion.Hub.DeleteDeploymentWithContainers` | berth-hub/src/routes/api.rs:543-562 | Rows, directories and container end exactly as specified, whichever operation or request fails. What that amounts to is `ContainerGoesIff`, `SuccessLeavesNothing` and `OnlyItsOwnContainerIsTouched`. |
| `Deletion.SuccessLeavesNothing` | berth-hub/src/routes/api.rs:537-562 | A success leaves no row, no container and no directory of the deployment on either side, and changes no other row. |
| `Deletion.OnlyItsOwnContainerIsTouched` | berth-hub/src/routes/api.rs:537-562 | However a deletion ends, no other container is touched, and never that of the active deployment. |
| `Deletion.RefusalChangesNothing` | berth-hub/src/storage.rs:1250-1261 | A refused deletion changes no row, no directory and no container. |
| `Deletion.DeletionErrorsAre` | berth-hub/src/routes/api.rs:543-562 | Which error a deletion gives, exactly when. |
| `Deletion.ContainerGoesIff` | berth-hub/src/routes/api.rs:537-562 | For every fault: when exactly the row goes, when the container goes, when which directory on either side goes, and when the deletion succeeds. |
| `Deletion.DirectoryGoesIff` | berth-hub/src/routes/api.rs:543-562 | The same for a deployment without a container: when its row goes, when its directory goes, and when the deletion succeeds. |
| `Deletion.RetryingFindsNothing` | berth-hub/src/routes/api.rs:543-562 | Once the row is gone, every retry is refused and changes nothing. |
| `Deletion.DeletionWithoutAgentStrandsTheContainer` | berth-hub/src/routes/api.rs:556-560 | A concrete family: the agent is not connected, the row goes, the container runs on. |
| `Deletion.DeletionsAgree` | berth-hub/src/storage.rs:1243-1270 | Deleting by text removes the same rows as deleting by id in the store's own model. |
| `Deletion.DeletionCanStrandAContainer` | berth-hub/src/storage.rs:1274-1281 | A concrete family: the row is gone, the caller is told there was none, the container still runs. |
| `Reconcile.Reconciler.FailPendingDeployments` | berth-hub/src/reconcile.rs:21-82 | The nested loops fail what is pending, skipping whatever listing, request or update goes wrong. |
| `Reconcile.Reconciler.ReconcileRunModeContainers` | berth-hub/src/reconcile.rs:91-109 | The loop asks the agent to start what each app wants, skipping apps that fail; the agent does what its own model does. |
| `Reconcile.Reconciler.SweepAgentOrphanedDeploymentDirs` | berth-hub/src/storage.rs:150-203 | The loops over hosts and directories remove the orphans listed, skipping failed listings and removals. Which those are is `ExactlyTheOrphansGo`. |
| `Reconcile.Reconciler.OnAgentConnected` | berth-hub/src/reconcile.rs:11-15 | The three parts in order, for every fault. |
| `ReconcileTheorems.RowsAfterAPass` | berth-hub/src/reconcile.rs:21-82 | A row turns to failed exactly if it is pending and the listings and its own update succeed; every other row is as it was. |
| `ReconcileTheorems.PassIsOwn` | berth-hub/src/reconcile.rs:84-109 | After a pass an app's containers are as its own start left them, whatever goes wrong for other apps. |
| `ReconcileTheorems.WhatShouldRunRunsIff` | berth-hub/src/reconcile.rs:84-133 | If nothing goes wrong for it, what should run on a connected host runs after a pass if and only if no install container of a non-pending deployment is in the way. |
| `ReconcileTheorems.BlockedStaysBlocked` | berth-hub/src/reconcile.rs:84-133 | An app blocked like that stays blocked through every pass, whatever happens in it. |
| `ReconcileTheorems.LeftoverInstallBlocksForEver` | berth-agent/src/containers.rs:246-281 | A concrete fleet on which no pass, however it goes, starts the app. |
| `ReconcileTheorems.ExactlyTheOrphansGo` | berth-hub/src/storage.rs:150-203 | A directory goes exactly if its name spells an id that no deployment with a container has, its host is connected, and the listings and its own removal succeed. |
| `ReconcileTheorems.LiveContentStays` | berth-hub/src/storage.rs:186-190 | A directory whose name is no id, or that of a deployment with a container, is never swept, whatever goes wrong. |
| `ReconcileTheorems.OnlyLiveContentIsLeft` | berth-hub/src/storage.rs:150-203 | After a pass without faults every directory on a connected host that is named by an id is that of a deployment with a container. |
| `ReconcileTheorems.UnaskedIsLeftAlone` | berth-hub/src/reconcile.rs:91-133 | An app whose start is not asked for keeps its containers. |
| `ReconcileTheorems.DisconnectedHostsAreLeftAlone` | berth-hub/src/reconcile.rs:21-151 | Nothing happens to containers or directories of a host that is not connected. |
| `ReconcileTheorems.BystandersAreLeftAlone` | berth-hub/src/reconcile.rs:11-151 | Containers that are neither wanted nor install containers are not touched on any host, whatever goes wrong. |
| `ReconcileTheorems.SecondPassIsIdle` | berth-hub/src/reconcile.rs:5-15 | After a pass without faults a second one changes nothing, in whatever order things are listed and whatever goes wrong in it. |
| `ReconcileTheorems.RestfulIff` | berth-hub/src/reconcile.rs:5-15 | A fleet has nothing pending, nothing to start and no orphan if and only if a pass in which all goes well changes nothing of it. |

## Left out

- Liveness: bounded channels can block the session loop, and nothing is claimed about progress beyond `Uploads.EveryUploadSettles`.
- Cancellation of a call's future, and the request counter wrapping around.
- `AgentRegistry`, HTTP relaying (`relay.rs`, `spawn_request_feeder`, `response_body_stream`) and protocol upgrades.
- Podman, the database, tonic, axum, gix, argon2, ChaCha20-Poly1305, TLS and the zip byte format themselves.
- Symbolic links, names that are not valid UTF-8, archives whose entries hold more than they declare, and `dir_size_bytes` overflowing 64 bits.
- `berth-hub/src/zip_extract.rs`: the same algorithm as the agent's copy.
- Store: renaming an app, permissions, hosts and tokens; moves inside a deployment's own directory by `finish_git_deployment`.
- Store: directory names that are no ids, which the sweeps skip.
- `StorePointers.ActiveAlwaysNamesARow`: only for deletions that spell ids canonically; without that the statement is false, as shown above.
- `Uploads.ConcurrentUploadsReassemble`: distinct deployment ids, since handlers share a file per deployment id; whether what is handed to the unpacker unpacks is `AgentFs`.
- Uploads: one session, so no request id is used twice; a later session's handler for the same deployment would share its file.
- `DeploymentLogs.RunLogIsRetained`: no file operation fails; the contract of `Push` says what happens when one does.
- `LiveTail.LiveTailHasNoGap`: no subscriber lags, the backlog is read in one step, and the log is the run log.
- `CommandDrain.DrainCommandOutput`: the replies are given as the sequence that will arrive; other tasks of the link are covered by the session machine instead.
- `LoginBounds.AtMostNineteenFailures`: attempts from one address come one at a time; for attempts that race the bound is `LoginRaces.FailuresAreBounded`.
- `EnvStore.DecryptGivesThePlaintextList`: calls come one after another; updates that race are `EnvRaces`, where names and hosts are not checked.
- `GitFetch.EveryExitIsClean`: removing a directory succeeds; the host process does not die (the startup sweep covers that).
- `Activation.NeverBothDown`: one activation at a time, and containers on the app's current host; routing between stopping the old container and moving the pointer is not claimed.
- `Deletion.SuccessLeavesNothing`: one deletion at a time; interleaved requests are the subject of `Store`.
- `Containers.RunCommandToCompletion`: when the scheduled removal of its container happens; `Docker.CleanUp` is what it does, and nothing here runs it in between.
- `ReconcileTheorems.SecondPassIsIdle`: nothing else runs meanwhile, delayed removals included; the log pumps a pass starts are not part of it.
- Deleting an app with its containers, and reading logs of phases other than the run log while they are written.
- The dashboard, the site, configuration, migrations, statistics, and validators of addresses, URLs and user names.
