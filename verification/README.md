# Verified model of the file synchronisation service

The service keeps the files of its users on several servers and on the users' devices. One server
is the primary, the others are backups; when the primary dies the survivors repair their ring and
elect the next one. This project models the service in Dafny and proves what its design relies on.

`dafny verify dfyconfig.toml` checks everything.

| files | what they model |
|---|---|
| `Ring.dfy`, `Election.dfy` | places on a ring; one server's side of the election: start, reply to one message, drive until a result |
| `ElectionMachine.dfy` | the election of all servers at once: FIFO channels, any interleaving, connections that break and come back |
| `ElectionProgress.dfy`, `ElectionCost.dfy`, `ElectionLaunch.dfy` | unbroken elections: no deadlock, one winner, a clean ring, and exactly what they cost |
| `ElectionView.dfy` | every server of any election, with breaks, does what its own driver does |
| `Server.dfy`, `Cluster.dfy`, `Failover.dfy` | the search for the next server, the ring, the main loop; runs of the whole cluster in which primaries and backups are lost |
| `SocketStream.dfy`, `Duplex.dfy` | the stream buffer whose two areas share one array; two peers that talk through such buffers |
| `Protocol.dfy` | commands, paths and files on a stream, with the packet loops |
| `Replica.dfy`, `Snapshot.dfy` | sending and replaying operations, also from a stream that ends in the middle; the first copy of a directory |
| `Replication.dfy`, `Convergence.dfy`, `Joining.dfy`, `ReplicationLog.dfy` | handler threads, receivers and joining devices in any interleaving; when the receivers get the primary's files |
| `Composite.dfy`, `CompositeView.dfy` | the list of devices and the broadcast on its streams; they carry out the replication protocol |
| `Inotify.dfy` | the parser of directory events and the list of changes that wait to be sent |

Where the original changes fields or buffers, the model is a class with methods, and their
contracts tie the new state to specification functions; the lemmas are about these functions and
about the state machines built from them.

## What the proofs found

* **Election.** Whoever returns an id returns the largest one, also when connections break and are
  renewed at any time. Without breaks the number of messages does not depend on the interleaving at
  all: it is the sum of the distances from each id that joins to the next larger one, plus one lap,
  and who joins follows from who starts (`JoinersLaunch`, `JoinersDecideCost`).
* **Failover.** Runs in which only primaries are lost keep the ring. The offset counts lost
  primaries and skips that many servers. With backups lost as well, the repaired connections form one
  cycle through all live servers if and only if no server that has to search begins its search behind
  a live one (`RingedIff`). `LostBackupBreaksRing` is a run of six servers after which a live one is
  nobody's neighbour. A server finds nobody and elects itself, although others are live, exactly when it
  has to search and all others come before the place where its search begins (`FindsNobodyIff`); this
  happens to one server at most (`NotTwoFindNobody`), and `LostBackupsSplit` is a run in which it does.
* **Main loop.** Its condition reads a variable that is unset as long as no election has succeeded
  (`server/main.cpp:88-123`). The model makes this value a parameter. A server with a connection reports
  what its election yields, also when it fails, and elects itself only without one (`TurnElects`); in
  runs of the cluster the outcomes of a survivor's loop are the elected primaries
  (`SurvivorFollowsMainLoop`).
* **Stream buffer.** The get area and the put area share one array. Two peers read at every moment
  exactly what the other one wrote if and only if no byte is put where a different one is still unread
  (`ReadsWhatWasWrittenIff`); otherwise a side can read its own byte (`OwnByteIsRead`). Writing a number
  of bytes is harmless for all contents exactly when the slots they go to hold nothing unread
  (`WriteIsHarmlessIff`). After a short write the beginning of the put area is kept instead of its end;
  this is harmless for all contents exactly when everything or nothing was sent
  (`ShortWriteIsHarmlessIff`). Nobody ever waits with unsent bytes, in any run.
* **Backup.** The result of receiving a path is ignored, so that a message that is cut off within
  its path takes effect on the path of the message before. `CutIsCleanIff` says exactly when the
  files are nevertheless those of the whole operations before the cut, or of these and the one that was
  cut; `CutStallsIff` says when the backup hangs instead of noticing that its primary is gone.
* **Snapshot.** A snapshot that ends anywhere before its closing message is never taken for whole;
  `SnapshotCut` gives the files and says when the client waits for ever.
* **Replication.** A broadcast whose file has been removed breaks off and leaves the beginning of a
  message in the put area of the first stream, where it waits for the next message that is flushed,
  unless the put area runs over before (`TearIsSilentIff`). Its receiver then takes what follows for the
  content of that file and hangs (`ReplayPart`, `ReplayBroken`). In every run, a settled backup gets exactly the primary's files if and
  only if nothing of such a message has been sent to it and the last it was told about a file of the primary is
  never its deletion (`ConvergesIff`). Looking before telling is enough: of a deletion only while the
  file is not there, of an upload only while it is (`TimelyConverges`). Looking at deletions alone is
  not: `TornDiverges` is a run of two handlers in which no deletion is told while its file is there and
  the backup lacks a file for good; `OverlapDiverges` is one in which nothing breaks off. Uploads alone
  converge in any interleaving, so does a single handler, and serialised operations of any handlers
  are replayed as a log (`BackupsReplayTheLog`).
* **Watch.** Whatever happens in the directory, the last action noted for a file says whether the file
  is there (`LastActionTells`).
* **Joining.** When a listed file is removed before it is sent, the snapshot is broken off, the device
  is listed all the same, and it ends for ever with the files that were sent before and that file
  emptied (`BrokenSnapshotIsFinal`, `SnapshotBrokenOff`). A join fails for certain once a listed file is
  gone and not stored again (`MissingJoinFails`), and never while listed files are spared.

## Assumptions

* Server ids are single bytes, so that there are at most 256 servers.
* The ring is fixed during one election, and connecting to an elected primary succeeds.
* Every survivor notices the loss of its primary: no content of a file is on its way to a backup at
  that moment (otherwise `CutStallsIff` applies to it).
* A socket is represented by the bytes the peer sends before it goes away and by the bytes sent so
  far; a read yields any positive number of them. `write` sends everything, except in the contracts of
  `Sync` and `Underflow`, which cover short and failing writes.
* The serialisation library is represented by a small codec: a flag byte before every value, lengths
  of eight bytes with the lowest first, commands of one byte. The library is not part of this model.
* Files open for writing under every non-empty path, writing a file is atomic for other threads, and
  no file is longer than its length field can say.
* In the replication protocol an upload to the primary arrives as a whole; what an interrupted one
  leaves behind is in the contracts of `Composite.ClientComposite.Upload` and `SyncFromClient`.
* Broadcasts and joins of one user exclude each other, which is the intent of the mutex.

## Model

| member | source | states |
|---|---|---|
| Election.Election.constructor | server/election/Election.hpp:36 | a new election of a server has not started |
| Election.Election.StartElection | server/election/Election.cpp:3-9 | the flag is set and the own id is written; reports whether the write was complete |
| Election.Election.ReplyElection | server/election/Election.cpp:11-61 | one message is read and handled: smaller ids are dropped after the start and replaced before it, larger ones forwarded, the own one turned into an announcement; broken connections are told apart |
| Election.PerformElection | server/Server.cpp:4-22 | start, then replies until an id is announced or a connection breaks; result, messages written and messages left unread |
| Election.RepliesReadOn | server/Server.cpp:13-15 | what the driver leaves unread is the end of what arrives |
| Election.RepliesStopAtFirstAnnouncement | server/Server.cpp:13-21 | an id is returned only for the first announcement, nothing beyond it is read; the broken side is reported correctly |
| ElectionMachine.ReactSound | server/election/Election.cpp:26-59 | an id that has passed only smaller ids so far still has when it is sent on, and an own id that comes back is the largest |
| ElectionMachine.ApplySafe | server/election/Election.cpp:3-61 | every step, including breaks, reconnects and retries, keeps all messages sound and all returned ids maximal |
| ElectionMachine.ReturnersAgreeOnMax | server/election/Election.cpp:25-59 | election safety: all returned ids are the largest id of the ring and equal, for any ids, starters, interleaving and breaks |
| ElectionMachine.ReturnedAreReset | server/election/Election.cpp:48-50 | in every run an election that has returned has taken back its start |
| ElectionProgress.NotBehind | server/election/Election.cpp:26-47 | no server that can still read or start lies behind the message of the largest id |
| ElectionProgress.SubstituteOpen | server/election/Election.cpp:33-35 | replacing a smaller id by the own one keeps every launched id or a larger one on the ring |
| ElectionProgress.DeclareAnnounces | server/election/Election.cpp:36-38 | when the largest id is back, every channel is empty but for the announcement |
| ElectionProgress.AnnouncementMoves | server/election/Election.cpp:48-59 | the announcement goes round once, everyone it passes returns, the winner last |
| ElectionProgress.StepKeepsInv | server/election/Election.cpp:3-61 | every start and every reply keeps the invariant of unbroken elections |
| ElectionProgress.RestMeansElected | server/Server.cpp:4-22 | no deadlock: the ring rests exactly when everyone has returned, then with the largest id, one declared winner and empty channels; every id is launched at most once, for any set of starters |
| ElectionProgress.WinnerReturnsLast | server/election/Election.cpp:48-59 | when the winner has returned, everyone has, and no message is left |
| ElectionCost.StepPays | server/election/Election.cpp:3-61 | every step takes one off the remaining steps, and one off the remaining messages for each message written |
| ElectionCost.TotalReachWorst | server/election/Election.cpp:26-47 | for any arrangement the ids travel at most n(n+1)/2 hops together |
| ElectionCost.ElectionTerminates | server/Server.cpp:13-15 | every interleaving stops within a known number of steps and writes at most n(n+1)/2 + n messages |
| ElectionCost.CompleteElectionCost | server/election/Election.cpp:3-61 | every complete election writes exactly the hops of the launched ids plus n messages, whatever the interleaving |
| ElectionCost.RunCompletes | server/Server.cpp:13-15 | from every state of an unbroken election there is a way to its end |
| ElectionCost.AscendingElectionCost | server/Server.cpp:28-48 | on the ring that the servers build an election of all takes exactly 3n - 1 messages |
| ElectionLaunch.StepLaunches | server/election/Election.cpp:3-61 | every step keeps: who has put its id on the ring joins, and its id is still on its way or has made the next larger server put its own there |
| ElectionLaunch.JoinersLaunch | server/election/Election.cpp:27-36 | in every complete election exactly those servers put their ids on the ring that start or are the first larger one after one that does |
| ElectionLaunch.JoinersDecideCost | server/election/Election.cpp:27-57 | the number of messages of a complete election follows from the ids and the starters, whatever the interleaving |
| ElectionView.ChannelsAreQueues | server/election/Election.cpp:15-19 | what a server reads and has still to read is what its neighbour wrote, in order |
| ElectionView.AttemptFollowsDriver | server/Server.cpp:4-22 | from any state, whatever breaks and comes back: in one attempt a server writes, returns or reports exactly what its driver yields on the messages that reach it |
| ElectionView.ServersFollowDriver | server/Server.cpp:4-22 | the same from the beginning of every election with any starters; who is not a starter follows the reply loop |
| Server.Server.constructor | server/main.cpp:85-89 | the loop starts without a connection and with offset 1 |
| Server.Server.FirstIndex | server/Server.cpp:28 | the search begins offset places further, modulo the number of servers |
| Server.Server.IncNext | server/Server.cpp:29 | the search goes on to the next place of the ring |
| Server.Server.ConnectNext | server/Server.cpp:24-52 | connects to the first live server from the offset on; never tries itself nor a server twice; reports failure exactly when there is none before it is back at itself |
| Server.Server.TryServer | server/Server.cpp:37-46 | a server is tried until it accepts or its time is up |
| Server.Server.CreateNext | server/Server.cpp:97 | the old connection is gone |
| Server.Server.TakeTurn | server/main.cpp:91-122 | the connection is kept while it holds and otherwise searched for; while there is one the outcome is that of the election, failures included, and without one the server elects itself; a failed election leaves offset and reply, a successful one takes over the reply and counts a lost primary |
| Server.Server.MainLoop | server/main.cpp:91-123 | every turn but the last had a failed election or a reply other than a shutdown; if turns are left over, the last one succeeded with a shutdown, or was the first, failed, and found the unset variable to be a shutdown; connection, offset and outcomes are those of the turns |
| Server.OffsetCountsLosses | server/main.cpp:114-122 | the offset is one more than the primaries lost; a server that finds nobody elects itself |
| Server.TurnElects | server/main.cpp:102-122 | over any turns: in each of them a server with a connection reports exactly what its election yields, be it a failure, and one without elects itself |
| Server.SuccessorInjective | server/Server.cpp:24-52 | no two live servers connect to the same one |
| Server.WalkReaches | server/Server.cpp:24-52 | following the connections leads from every live server to every live server within one lap |
| Server.RingForms | server/Server.cpp:24-52 | the connections of the live servers are a bijection and one cycle, in cyclic order of the indices |
| Cluster.LargestElected | server/main.cpp:99-112 | every complete election on a ring of live servers, and a server that is alone, elects the largest live server |
| Cluster.RoundKeepsOrderly | server/main.cpp:91-122 | with any backups lost: survivors keep equal offsets that never lead beyond a lap, and connections that lead upwards or back to the smallest live server |
| Cluster.RingIsAdjacent | server/Server.cpp:24-52 | on a ring of a reachable cluster no connection passes over a live server |
| Cluster.SearchAdjacentIff | server/Server.cpp:28-48 | a search finds the next live server exactly if it does not begin behind a live one |
| Cluster.RingedIff | server/main.cpp:92-119 | in every run with primaries and backups lost, the repaired connections form one cycle through all live servers if and only if no server that searches begins behind a live one |
| Cluster.FindsNobodyIff | server/main.cpp:109-112 | in every run with primaries and backups lost, a live server ends without a connection and elects itself if and only if it has to search and every other live server comes after it and before the place where its search begins |
| Cluster.NotTwoFindNobody | server/main.cpp:109-112 | two live servers never both find nobody |
| Cluster.SurvivorFollowsMainLoop | server/main.cpp:89-122 | a survivor has in the cluster the connection and the offset of its own main loop, and the outcomes of its main loop are exactly the primaries of the rounds |
| Failover.LastSearches | server/Server.cpp:28-48 | the survivor before the lost primary finds server 0, or nobody when it is alone |
| Failover.LoseShape | server/main.cpp:92-119 | losing the primary and repairing turns one ring into the ring of one server less |
| Failover.EpochPrimary | server/main.cpp:99-112 | every complete election of an epoch is won by the largest survivor |
| Failover.FailoverKeepsShape | server/main.cpp:89-123 | after k losses: offsets k+1, links exactly the ring 0 to n-1-k, primary n-1-k, for all interleavings of all elections |
| Failover.LastSurvivorAlone | server/main.cpp:109-112 | the last survivor's search begins with itself, so it tries nobody and elects itself |
| Failover.RingElects | server/Server.cpp:4-22 | on every ring an election can be completed and elects the largest server, so that runs go on |
| Failover.LostBackupBreaksRing | server/main.cpp:96 | a run of six servers, two primaries and one backup lost, after which a live server is nobody's neighbour and there is no ring |
| Failover.LostBackupsSplit | server/main.cpp:109-112 | a run after which a server finds nobody and elects itself although another one, connected to it, is live |
| SocketStream.Socket.Read | common/networking/SocketStream.cpp:5-13 | any positive number of bytes, end of stream, or an error |
| SocketStream.Socket.Write | common/networking/SocketStream.cpp:15-24 | everything, a first part, or an error |
| SocketStream.SocketBuffer.constructor | common/networking/SocketStream.cpp:60-63 | both areas start empty at the beginning of the array |
| SocketStream.SocketBuffer.Sync | common/networking/SocketStream.cpp:65-74 | the put area is sent and empty; after a short write its beginning stays; after a failure it is unchanged |
| SocketStream.SocketBuffer.Overflow | common/networking/SocketStream.cpp:47-58 | the byte is stored behind the put area, everything is sent; failure is reported as end of file |
| SocketStream.SocketBuffer.Sputc | common/networking/SocketStream.cpp:47-63 | is the put of the two-peer protocol, with its effect on the shared array; unread bytes are kept exactly when the put pointer is not among them or the byte is the same |
| SocketStream.SocketBuffer.Underflow | common/networking/SocketStream.cpp:26-45 | the next byte; before the socket is read the put area is written to it, whose result is ignored, and what is left of the put area is overwritten by what arrives; with whole writes it is the refill and arrival of the two-peer protocol |
| SocketStream.SocketBuffer.Sbumpc | common/networking/SocketStream.cpp:26-45 | takes the first unread byte; written bytes are neither lost nor changed |
| SocketStream.SocketBuffer.Read | common/communication/protocol.cpp:82 | yields exactly the next bytes, fewer only at the end of the stream, for any split of the reads |
| SocketStream.SocketBuffer.Write | common/communication/protocol.cpp:53 | all bytes are appended to what was written, as so many puts; what fits into the put area stays there and what does not sends all before it; what is unread stays if the slots written to hold nothing unread |
| SocketStream.WriteIsHarmlessIff | common/networking/SocketStream.cpp:47-63 | writing n bytes loses nothing unread for any contents exactly if the slots they go to, round the end of the array, hold nothing unread |
| SocketStream.ShortWriteIsHarmlessIff | common/networking/SocketStream.cpp:72 | a write to the socket that sends only a part keeps what was written, for all contents, exactly if all or none is sent |
| SocketStream.PuttedAllLeaves | common/networking/SocketStream.cpp:47-63 | writing byte by byte without a flush leaves on the wire and in the put area what the closed form says |
| SocketStream.AppendedRunsOver | common/constants.hpp:13 | the put area takes 65536 bytes, and one more sends everything |
| Duplex.ActKeepsSteady | common/networking/SocketStream.cpp:26-45 | every action keeps: as many bytes are read, received or on their way as were sent, and within a read from the socket both areas are empty |
| Duplex.ActConservesIff | common/networking/SocketStream.cpp:26-74 | an action keeps what was sent exactly if it puts no byte where a different one is still unread |
| Duplex.WrittenIsPut | common/networking/SocketStream.cpp:47-74 | in every run the wire and the put area together hold exactly the bytes that the side has put, in order |
| Duplex.NobodyWaitsForUnsentBytes | common/networking/SocketStream.cpp:31-33 | in every run a side that is blocked in a read has sent everything that it put; when both are, each has read as many bytes as the other ever put |
| Duplex.ReadsWhatWasWrittenIff | common/networking/SocketStream.cpp:26-74 | each side reads at every moment what the other sent, in order, if and only if no byte is put over a different unread one; then it has read a beginning of what the other put, and all of it when both are blocked |
| Duplex.OwnByteIsRead | common/networking/SocketStream.cpp:60-63 | a run in which a side reads the byte that it has written itself |
| Protocol.NumberLittle | common/communication/protocol.cpp:48-49 | lengths survive encoding and decoding |
| Protocol.UnframedFrame | common/communication/protocol.cpp:23-36 | a length-prefixed text delimits itself, whatever follows |
| Protocol.FrameCut | common/communication/protocol.cpp:75-90 | no proper beginning of a message is a message; what there is of its content is a beginning of the content |
| Protocol.FileRoundTrip | common/communication/protocol.cpp:38-92 | receiving a sent file gives its content and leaves what follows; no part of it is taken for the whole |
| Protocol.CutFile | common/communication/protocol.cpp:63-92 | a file's message that ends before its header is complete empties the file, and one that ends later leaves what has arrived of the content and never ends |
| Protocol.FileExchange.Flush | common/communication/protocol.hpp:56 | everything written is on the wire |
| Protocol.FileExchange.SendCommand | common/communication/protocol.cpp:121-124 | one command is appended, and not flushed |
| Protocol.FileExchange.ReceiveCommand | common/communication/protocol.cpp:99-119 | the next command, or the end of the stream |
| Protocol.FileExchange.SendPath | common/communication/protocol.cpp:10-21 | the path is appended as one message, and not flushed |
| Protocol.FileExchange.ReceivePath | common/communication/protocol.cpp:23-36 | the next path replaces the old one, which stays if it does not arrive as a whole |
| Protocol.FileExchange.Send | common/communication/protocol.cpp:38-61 | size and content are appended exactly, for every size including 0 and multiples of the packet size, without a flush; nothing if the file is missing |
| Protocol.FileExchange.Receive | common/communication/protocol.cpp:63-97 | the file is emptied and then holds exactly the announced bytes; what follows is untouched; the cases of a stream that ends too early |
| Protocol.FileExchange.ReceiveContent | common/communication/protocol.cpp:80-90 | the packet loop appends exactly the announced bytes or all there are |
| Replica.Sender.Upload | common/composite/Sender.cpp:3-16 | one upload message with the current content is written and flushed; for a missing file only its beginning is written and nothing is flushed: if it fits, the wire is as before and the put area has grown by it |
| Replica.Sender.Delete | common/composite/Sender.cpp:18-27 | one delete message is sent |
| Replica.Backup.Store | server/replica/Backup.cpp:20-32 | an upload message is applied, whether or not its path arrived |
| Replica.Backup.Remove | server/replica/Backup.cpp:34-47 | a delete message is applied, whether or not its path arrived |
| Replica.Backup.MainLoop | server/replica/Backup.cpp:5-56 | the files, the path and the reply are those of replaying all bytes that arrive |
| Replica.ReplayOne | server/replica/Backup.cpp:20-50 | one whole message is replayed as the operation that it encodes |
| Replica.ReplayUndoesEncode | common/composite/Sender.cpp:3-27 | replaying the messages of any operations applies exactly these in their order |
| Replica.ReplaySkips | server/replica/Backup.cpp:48-50 | any other command is skipped, wherever it stands between the messages |
| Replica.ShortMessages | common/communication/commands.hpp:10-21 | the bytes of short messages, with the numbers of the commands |
| Replica.CutSplits | common/composite/Sender.cpp:3-27 | any beginning of the stream is whole messages and a beginning of one more |
| Replica.ReplayTorn | server/replica/Backup.cpp:20-47 | the exact effect of the beginning of one message |
| Replica.ReplayCut | server/replica/Backup.cpp:5-56 | a stream that ends anywhere is replayed as its whole messages and the effect of a torn one |
| Replica.CutIsCleanIff | server/replica/Backup.cpp:21-47 | exactly when a torn message leaves the files of the operations before it, and exactly when it leaves these or the files after it |
| Replica.CutStallsIff | common/communication/protocol.cpp:80-90 | the backup hangs exactly when the stream ends within the content of a file |
| Replica.ReplayPart | server/replica/Backup.cpp:20-32 | what follows a broken upload message is taken for its file, whatever it is: the first bytes for the length, the others for the content |
| Replica.ReplayBroken | common/composite/Sender.cpp:10-12 | a stream with a broken message, after which less follows than the misread length: the messages before it are replayed, its file is emptied and filled with what follows the misread length, and the receiver hangs if there is such a length |
| Replica.MisreadLength | common/communication/protocol.cpp:75-78 | the length that is misread from the next message, which is more than 65536 for each byte of its path |
| Snapshot.ClientHandler.GetSyncDir | server/ClientHandler.cpp:125-146 | every listed file is sent and then the closing message, up to the first file that is missing; nothing is flushed |
| Snapshot.ClientHandler.SendOne | server/ClientHandler.cpp:132-142 | one listed file is written, or only the command and the path if it is gone |
| Snapshot.Client.ReceiveOne | client/client.cpp:123-130 | one path and its file are received |
| Snapshot.Client.GetSyncDir | client/client.cpp:114-139 | the directory is emptied and then holds what the messages say |
| Snapshot.SyncMany | client/client.cpp:120-136 | all files of a listing are received over any local files |
| Snapshot.SnapshotRoundTrip | client/client.cpp:114-139 | the client ends with exactly the server's files and stops right after the closing message |
| Snapshot.SnapshotBrokenOff | server/ClientHandler.cpp:136-141 | if a listed file is gone when its turn comes, the client has exactly the files before it and that file emptied, and has not been told the end |
| Snapshot.SnapshotCut | client/client.cpp:114-139 | a snapshot that ends anywhere before its closing message is never taken for whole: the exact files after every prefix, which are the whole files before the end and what there is of one more, and exactly when the client waits for ever |
| Snapshot.SnapshotWholeIff | client/client.cpp:120-136 | a beginning of a snapshot is taken for whole if and only if it is all of it |
| Snapshot.ClosedIff | client/client.cpp:120-136 | after any whole files, every command but the one for a file ends the loop, and only the closing one with success |
| Composite.ClientComposite.Emplace | server/ClientComposite.cpp:14-28 | a third device is refused; otherwise the device is sent the directory and put at the end of the list |
| Composite.ThreeJoin | server/ClientComposite.hpp:54 | two devices are taken on, and a third one is not |
| Composite.ClientComposite.Remove | server/ClientComposite.cpp:8-12 | exactly the devices with this id leave the list |
| Composite.ClientComposite.Send | server/ClientHandler.hpp:98-105 | one change is written to one stream, which is flushed if all of the change could be written and otherwise not |
| Composite.ClientComposite.BroadcastCommand | server/ClientComposite.cpp:30-59 | every device but the origin and then every backup is sent the change; if the file is gone, only the first of them has the beginning of a message written to its stream, and not flushed |
| Composite.ClientComposite.Upload | server/ClientHandler.cpp:84-94 | nothing happens if the path does not arrive; the file is stored as far as it arrives, and everyone else is told exactly if all of it did |
| Composite.ClientComposite.Delete | server/ClientHandler.cpp:96-108 | an existing file is removed and everyone else is told; a missing one is not announced, and a path that does not arrive changes nothing |
| Composite.ClientComposite.SyncFromClient | server/ClientHandler.cpp:171-198 | a change from the device's watch is made and broadcast without any check, on the previous path if its own does not arrive |
| CompositeView.BroadcastRefines | server/ClientComposite.cpp:41-51 | a broadcast of the composite is a broadcast of the protocol: its streams have sent exactly the bytes of what the receivers were told |
| CompositeView.FailedBroadcastRefines | server/ClientComposite.cpp:41-51 | a broadcast of a file that is gone is one of the protocol, which ends with the first receiver; wire and put area of its stream are split where the protocol says |
| CompositeView.UploadRefines | server/ClientHandler.cpp:84-94 | a whole upload is a storing step and a broadcast, and leaves the protocol's files and streams |
| CompositeView.DeleteRefines | server/ClientHandler.cpp:96-108 | a deletion is a removing step and a broadcast |
| CompositeView.EmplaceRefines | server/ClientComposite.cpp:14-28 | putting a device on the list is joining with the snapshot that was sent, broken off or not |
| CompositeView.RemoveRefines | server/ClientComposite.cpp:8-12 | taking a device off the list is leaving |
| CompositeView.JoinRefines | server/ClientComposite.cpp:14-28 | a join between whose steps files change and receivers replay ends with a listed device that was sent exactly the steps' bytes and is the protocol's receiver |
| CompositeView.ReceiveRepresents | server/replica/Backup.cpp:20-50 | replaying does not change what the streams carry |
| Replication.ChangeKeepsInv | server/ClientHandler.cpp:84-108 | after any change every receiver is right about all other files and owed a message about this one |
| Replication.TellKeepsInv | server/ClientComposite.cpp:41-51 | telling a receiver makes it right about the file, whose current content is sent, or leaves it without the file as it was told |
| Replication.TellFailKeepsInv | server/ClientComposite.cpp:42-44 | a broadcast that ends because its file is gone changes nothing of what any receiver was told, and whoever removed the file still owes its deletion |
| Replication.TornTell | common/composite/Sender.cpp:3-16 | once the file of a broken message is there again and told of, more has followed the message than the file holds |
| Replication.TearIsSilentIff | common/composite/Sender.cpp:10-14 | a message that breaks off adds nothing to the bytes on their way exactly as long as the put area holds it |
| Replication.BrokenNeverAgrees | common/composite/Sender.cpp:10-12 | a receiver to which anything of a broken message has been sent never gets the primary's files |
| Replication.JoinKeepsInv | server/ClientComposite.cpp:14-28 | a device that is listed for, sent and added under the lock misses nothing |
| Replication.StepKeepsInv | server/ClientComposite.cpp:14-59 | every step of any run keeps: each receiver agrees with the primary on a file once it has replayed everything, or lacks it and was told last that it is gone, or somebody still owes it a message about the file |
| Replication.ConvergesIff | server/ClientComposite.cpp:30-59 | in every run, whenever no operation is under way: replaying the bytes in flight gives exactly the primary's files if and only if nothing of a broken message has been sent and the last told about a file of the primary is never its deletion; without a broken message it gives files of the primary only |
| Convergence.ToldAgreesIff | server/ClientHandler.cpp:96-107 | a receiver that is told agrees on the file exactly if it is not told of a deletion while the file is there |
| Convergence.TimelyConverges | server/ClientHandler.cpp:96-107 | if deletions are told only while the file is not there and uploads only while it is, every backup gets exactly the primary's files, and so does every passive device with its whole snapshot |
| Convergence.TornDiverges | common/composite/Sender.cpp:10-12 | a run in which deletions are told in time, but an upload whose file is gone breaks off: the backup lacks a file for good |
| Convergence.OrderlyConverges | common/composite/Sender.cpp:10-12 | if handlers do not get in each other's way, no broadcast fails for a missing file and backups and passive devices converge |
| Convergence.UploadsConverge | server/ClientHandler.cpp:84-94 | uploads from any number of handlers converge in every interleaving, with devices joining at any time; no stream is torn and every join succeeds |
| Convergence.OneHandlerConverges | server/ClientHandler.cpp:84-108 | uploads and deletions of one handler converge, wherever a device joins, unless its own snapshot is broken off |
| Replication.BroadcastTellsAll | server/ClientComposite.cpp:36-58 | a broadcast tells every receiver but the origin's device exactly once, in any order |
| Convergence.OverlapDiverges | server/ClientHandler.cpp:96-107 | an upload that overlaps a deletion of the same file can leave a backup different for good |
| Joining.SparedJoinsSucceed | server/ClientHandler.cpp:125-146 | in a run in which no listed file is removed before it is sent, no join fails |
| Joining.MissingJoinFails | server/ClientHandler.cpp:136-141 | once a listed file is gone and not stored again before its turn, the join ends by failing, whatever else happens |
| Joining.BrokenSnapshotIsFinal | server/ClientHandler.cpp:136-141 | a device whose snapshot was broken off ends for ever with the files sent before and that file emptied, whatever it is told |
| ReplicationLog.BackupsReplayTheLog | server/replica/Backup.cpp:5-53 | with serialised operations of any number of handlers a backup is always a beginning of the log replayed, the bytes in flight are the next stretch of the log, and they bring it to exactly the primary's files when no operation is under way |
| Inotify.Inotify.Handle | client/inotify.cpp:46-65 | a buffer of whole events is parsed to its end and not beyond; the actions of the events are appended, unless paused |
| Inotify.Inotify.Parse | client/inotify.cpp:50-63 | one event: its length, and its action if it has a name and a mask that matters |
| Inotify.Inotify.Note | client/inotify.cpp:53-61 | closed or moved-in files are uploads, deleted or moved-out ones deletions, directories nothing |
| Inotify.ActionOfChange | client/inotify.cpp:52-62 | the event of a change to a file, given by its mask as a number, yields an upload if it was closed after writing or moved in and a deletion if it was deleted or moved out, with its name; directories and mere modifications yield nothing |
| Inotify.LastActionTells | client/inotify.cpp:46-65 | after any history of changes, for every file in it the last action is an upload exactly if the file is there at the end and a deletion exactly if it is not; directories have none |
| Inotify.Watched | client/inotify.cpp:30-65 | the same of what the watch has noted once it has parsed the bytes of the history's events |
| Inotify.Inotify.Drain | client/client.cpp:193-217 | everything that waits is handed over once, in order |
| Inotify.FrontFields | client/inotify.hpp:68-70 | mask, length and name stand where the parser looks for them |
| Inotify.Carry | client/inotify.cpp:46-65 | the methods of the watch do what the steps of the model say |
| Inotify.NoticedOnce | client/client.cpp:185-221 | over all interleavings with pauses, what was sent and what waits are the actions of all batches read unpaused, once and in order |

## Left out

- SocketStream.SocketBuffer.Overflow: the original array has no slot behind the put area, and storing into it there is undefined; the model's array has one slot more, and says nothing about the original's behaviour when 65536 bytes have been written without a flush.
- Replication.ConvergesIff: nothing is claimed for the files of a device that changes files itself, because the original does not order the changes of two devices to one file; nor for a stream on which more has followed a broken message than the misread length, after which `ReplayPart` says how the reading goes on, nor for one on which only a part of a broken message has been sent, which takes a path that fills the put area alone (`BrokenIsWhole`).
- Composite.ClientComposite.Send: the original keeps one stream object for each receiver; the model keeps what has been sent on it and what is in its put area, and nothing is read from these streams.
- Replication.TellFailKeepsInv: a broadcast that fails releases the lock, as is intended; the original keeps it, see the counter of users below.
- Cluster.RingedIff: a run goes on from a ring or from a single server; what servers do that are left out of a broken ring, or that elect themselves beside others, is not followed further.
- Inotify.Inotify.Handle: a read that fails is not modelled, and changes that are read after the watch is resumed are reported even if they were made while it was paused, as in the original.
- Protocol.FileExchange.Receive: announced lengths that are negative are not modelled; they cannot come from a sender of this program.
- The counter of users in `server/ClientComposite.cpp:34-56`, whose early returns keep the lock; the model has the exclusion that it is meant to give.
- Backups that connect after changes have been made: they are not sent a first copy, and the original has no code for it.
- The shutdown flag of the loops, signals, timeouts, keepalive, errno, threads' waiting times and logging.
- The client's reconnection, its list of servers, and the commands for listing and for single downloads: small, and built from the same messages.
- Parsing of the configuration, of arguments and of command names, file times and tables: libraries and user interface.
- Directories below the user's directory, and files that cannot be opened for other reasons than an empty path.
- Several users at once: their files, lists and locks are separate, and one of them is modelled.
