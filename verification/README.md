# A verified model of the replicated messenger

The messenger is a chat system made of clients, front ends (FE) that relay their packets, and servers. One server is
primary and replicates every packet to its backups before acknowledging it. The servers stand in a ring, in the order
of the ports in `config.txt`, and elect a new primary when the current one crashes. Users join groups, at most two
sessions a user, and every group keeps a bounded history of its messages in a file.

This project models those protocols and data structures in Dafny and proves what they keep. `dafny verify
dfyconfig.toml` checks all of it. The classes follow the fields and loops of the C++ classes and are proved against
specification functions; what concerns several threads or servers is a state machine whose events are the atomic steps
of the source, and its theorems hold for every sequence of enabled events.

| Module | What it is about |
|---|---|
| `PortRing`, `Elections`, `ServersRings` | distances on the port list, one server's reaction to an election message, its connection to the next server |
| `ElectionRuns` | one election on a ring of any size: exact state after every delivery, exact cost, safety |
| `ManyStarters`, `TwoServers` | elections without the guard: any number of starters on any ring; what two servers can end up in |
| `Failover` | all runs of crashes, reconnections and elections from the start of the complete system |
| `Users`, `Groups`, `FeDisconnect` | the sessions of a group in place, joining, and exact disconnection |
| `Servers`, `SessionAccounting` | the server's tables; joins and disconnects of many threads, with the unguarded creation of groups |
| `LostFrontEnds` | what the loss of a front end leaves in the tables |
| `ServerRuns` | whole runs of one server: answers, counters, announcements and messages |
| `ReplicaAgreement`, `Replication` | equal tables from equal packets; the primary's critical section with losses, crashes and backups that connect at any time |
| `ReplicatedData` | both together: when the servers hold the same data |
| `Semaphores`, `LockRank` | the hand-written semaphore, with spurious wake-ups; the order in which the server takes its semaphores, and what they guard |
| `WakeUpQueue`, `FrontEndSlots`, `Clients` | the queues and hand-offs, one by one |
| `EndToEnd`, `Pipeline`, `Delivery` | a message's way from the keyboard to the history, place by place; the same with all semaphores, mutexes and flags; that it comes to an end |
| `HistoryRecords`, `HistoryFiles` | lines and bytes of a history file; the bounded log |
| `ConnectionMonitors` | the keep-alive monitor |
| `Common`, `Decimal`, `PacketText` | options, decimal numbers, the cut of texts to a packet |

## How the model is set up

- A connection attempt succeeds exactly if a server is running on the port; connections deliver in order.
- Clock readings, what a `readPacket` returns, which connection breaks and when a thread runs are parameters or events.
- A mutex that one thread locks and another unlocks is a flag; unlocking it twice leaves it unlocked.
- Erasing elements of a vector while iterating over it is taken to remove the matching elements.
- Client ids are UUIDs made once per client process (src/util/Uuid.cpp): joins bring ids that were never
  used before and are no front end's address.

## Where the code and its documentation differ

- `User::releaseSession` is documented to delete the pair of client id and front end (src/util/user.cpp:55-59), but its
  second comparison is made with the client id (src/util/user.cpp:68). `Users.Released` is the code, `Users.Without` the
  documentation, and `Users.ReleaseMatchesPair` says exactly when they agree; in the groups that can be reached they
  always do (`SessionAccounting.GroupsStayTidy`, `FeDisconnect.DisconnectIsPurge`).
- The project's README.md (README.md:16-17) promises that the servers hold exactly the same data. Three things break it.
  The semaphore is released between replicating a packet and applying it (src/server/server.cpp:238), so two front-end
  threads can apply their packets in another order than the backups. When a front end is lost, the primary
  disconnects its clients without telling the backups (src/server/server.cpp:266-268, 282-310). And a backup may connect
  while the primary is already serving (src/server/server.cpp:439-470), as it does when the servers are started one
  after the other; it is told nothing of what it has missed. The exact conditions, whenever all is quiet:
  - `ReplicatedData.EqualDataExactly`: as long as no front end is lost and no backup misses a join, the promise is kept
    in every run if and only if there is at most one front end.
  - `ReplicatedData.ConnectingExactly`: a backup that connects while all is quiet keeps it from then on if and only if
    nobody has joined yet. `ReplicatedData.LateBackupDiffers` is a run with one front end in which a message is
    acknowledged and missing from a connected backup.
  - `ReplicatedData.OneFrontEndGone`: losing the only front end keeps it if and only if no session was open there.
  - `ReplicatedData.EqualDataDespiteLossExactly` and `ReplicatedData.EqualDataDespiteLatenessExactly`: if front ends may
    be lost, or backups may come late, it is kept in every run if and only if there is no front end at all.
- A lost front end is to be forgotten (src/server/server.cpp:278-281), but a join that its listening thread has reserved may
  be inserted after the sweep: `LostFrontEnds.ForgottenExactly` says that no session stays behind if and only if no join
  of the front end is under way when the sweep begins.
- The server counts a user's sessions to limit them to two (src/server/server.cpp:342-344), but a group is looked up and
  created under no semaphore (src/server/server_group_manager.cpp:18-30). Two joins that both find their group missing
  create it twice, and the sessions in the first object are counted for ever and found by nobody:
  `SessionAccounting.TwoJoinsLoseASession`, `SessionAccounting.LosesBoth`. What is counted is always what is open,
  reserved or lost (`SessionAccounting.ConnectionsAreAccounted`), and nothing is lost if and only if such lookups do not
  overlap (`SessionAccounting.ConnectionsAreConserved`, `SessionAccounting.ConservedExactlyWithoutOverlap`).
- That only the server next to the crashed primary starts an election (src/server/ServersRing.cpp:233-235) is what makes
  elections end. With more starters all servers still agree on the largest id once no message is left
  (`ManyStarters.QuiescenceAgrees`), but two starters can keep two messages going round for ever, each server recording
  the other (`TwoServers.TwoStartsNeverEnd`), and three starts can leave two servers primary
  (`TwoServers.ThreeStartsMakeTwoPrimaries`). `Failover.AtMostOneStarter` shows that the guard excludes this.
- `Semaphore::wait` has no loop around the condition variable (src/util/Semaphore.cpp:16-18):
  `Semaphores.SpuriousExcess` says exactly what spurious wake-ups cost, and `Semaphores.ExcessIsReached` that it can come
  to this. The other theorems about semaphores are about condition variables without them.

## Model

| member | source | states |
|---|---|---|
| Elections.WireRoundTrip | src/server/Election.cpp:34-60 | An election message built, copied into the packet buffer and read back is the same status and id, for every port. |
| Elections.Election.BuildPacket | src/server/Election.cpp:34-46 | The text sent is read back as this status and id. |
| Elections.Election.StartElection | src/server/Election.cpp:14-30 | The starter sends its own id and stays non-participating. |
| Elections.Election.ProcessElectionInfo | src/server/Election.cpp:51-95 | The new flag, the message passed on and the primary returned, for each status, id and flag. |
| PortRing.HopAdvances | src/server/ServersRing.cpp:240-264 | One hop of a lap to the next live server adds exactly the server just left to those passed. |
| PortRing.PredecessorExists | src/server/ServersRing.cpp:284-306 | Every live server that is not alone is the next live server of some live server. |
| PortRing.PredecessorIsUnique | src/server/ServersRing.cpp:284-306 | And of one only, so a crash breaks one outgoing connection. |
| ServersRings.ReadPortMovesOn | src/server/ServersRing.cpp:28-50 | Reading a port moves exactly one line on, around the end of the file. |
| ServersRings.OnlyLossStarts | src/server/ServersRing.cpp:267-273 | A server that has lost nobody connects to the next line, or waits for it, and starts no election; an election is started only after the loss of the server taken for primary, on a new connection. |
| ServersRings.ServersRing.constructor | src/server/ServersRing.cpp:8-24 | The first free port of the list is bound, the first of the list taken for the primary. |
| ServersRings.ServersRing.GetNewPortFromFile | src/server/ServersRing.cpp:28-50 | The line after the last one read, or the first when the file has ended. |
| ServersRings.ServersRing.RetryConnection | src/server/ServersRing.cpp:240-264 | The retry loop ends, in the state the scan function describes, self-promotion included. |
| ServersRings.ServersRing.ConnectToServer | src/server/ServersRing.cpp:221-275 | Connection, flags and whether an election is started, for both ways of being the last server. |
| ServersRings.ServersRing.ListenClientCommunication | src/server/ServersRing.cpp:194-205 | The recorded primary, whether this server becomes it, and the message passed on. |
| ElectionRuns.MaxLapHop | src/server/Election.cpp:62-70 | On the first lap the message carries the largest id of the servers passed, and exactly those participate. |
| ElectionRuns.PartialLapHop | src/server/Election.cpp:73-78 | On the partial lap the largest id travels unchanged until it is back at its owner. |
| ElectionRuns.ElectedLapHop | src/server/Election.cpp:82-91 | On the last lap exactly the servers passed have recorded the winner and left the election. |
| ElectionRuns.Step | src/server/Election.cpp:51-95 | Until the end there is exactly one message, and its delivery moves the run on by one. |
| ElectionRuns.Trajectory | src/server/Election.cpp:14-94 | The exact state of every server and of the network after any number of deliveries. |
| ElectionRuns.ElectionCost | src/server/Election.cpp:14-94 | A message is in flight after k deliveries exactly if k < 2n + d, d being the hops from the starter to the largest id. |
| ElectionRuns.ElectionOutcome | src/server/ServersRing.cpp:194-205 | After 2n + d deliveries all have recorded the largest id, it alone has become primary, nobody participates, nothing is in flight. |
| ElectionRuns.ElectionSafety | src/server/Election.cpp:62-91 | At every step at most one message, no id recorded but the maximum, and the winner turns primary after all others recorded it. |
| ElectionRuns.WinnerIsLast | src/server/Election.cpp:82-91 | One delivery before the end everybody but the winner has recorded it. |
| ManyStarters.QuiescenceAgrees | src/server/Election.cpp:51-95 | With any number of starts, at any time, on a ring of any size, once no message is left all servers have recorded the largest id, its server is primary and nobody participates. |
| ManyStarters.LastHopSettles | src/server/Election.cpp:82-91 | Only the largest id's own ELECTED message, come home, can be the last one. |
| TwoServers.RoundRecurs | src/server/Election.cpp:62-91 | Two elections that meet come back to the same messages after eight deliveries, each of the two servers having recorded the other. |
| TwoServers.TwoStartsNeverEnd | src/server/Election.cpp:62-91 | For every k, two starts have a run of 6 + 8k steps that still has two messages under way, the largest id's server having recorded the smaller one. |
| TwoServers.ThreeStartsMakeTwoPrimaries | src/server/ServersRing.cpp:194-205 | Three starts have a run that ends without a message and with both servers primary. |
| Failover.ScanFindsNext | src/server/ServersRing.cpp:240-264 | The scan stops at the next live server in list order, and comes upon its own port only if nobody else is alive. |
| Failover.RelinkFindsNext | src/server/ServersRing.cpp:221-275 | Reconnecting after a crash finds the next live server and starts an election exactly if the primary was lost. |
| Failover.CrashedRing | src/server/ServersRing.cpp:284-306 | A crash leaves exactly one server without a next server, and all others linked. |
| Failover.NeighboursNotice | src/server/ServersRing.cpp:284-306 | A crash is noticed by the server before the crashed one and by the one after it, and by nobody else. |
| Failover.CrashStep | src/server/ServersRing.cpp:208-213 | From quiet, a crash leads to one broken link or to no server at all. |
| Failover.RelinkStep | src/server/ServersRing.cpp:221-275 | Repair closes the ring; an election begins exactly if the primary has crashed. |
| Failover.DeliverStep | src/server/ServersRing.cpp:194-205 | Each delivery leads through the election to agreement on a live primary. |
| Failover.EventStep | src/server/ServersRing.cpp:164-306 | Every enabled event keeps the system invariant, and all but crashes bring it closer to quiet. |
| Failover.BootOrder | src/server/ServersRing.cpp:97-101 | Servers started one after the other bind the lines of the list in order. |
| Failover.BootStartsNothing | src/server/ServersRing.cpp:221-275 | No server starts an election when the system comes up. |
| Failover.BootIsQuiet | src/server/ServersRing.cpp:8-113 | The complete system starts as a closed ring agreeing on the first port. |
| Failover.EveryRun | src/server/ServersRing.cpp:164-306 | The invariant holds after every run of crashes, reconnections and deliveries. |
| Failover.NeverTwoPrimaries | src/server/ServersRing.cpp:194-205 | In no reachable state are two live servers primary. |
| Failover.PrimariesAreElected | src/server/ServersRing.cpp:194-205 | In every reachable state a live server is primary exactly if it was the first on the list or has been elected. |
| Failover.AgreementWhenQuiet | src/server/ServersRing.cpp:194-205 | In every quiet state all live servers agree on one live primary, the largest id once there has been an election. |
| Failover.AtMostOneStarter | src/server/ServersRing.cpp:233-235 | At most one live server can reconnect, hence start an election, and never while one is running. |
| Failover.ElectedIdsDecrease | src/server/ServersRing.cpp:194-205 | The ids that become primary one after the other strictly decrease. |
| Failover.RepairsInBoundedTime | src/server/ServersRing.cpp:221-275 | After a crash at most 1 + 3n events follow before the next, n being the survivors. |
| Failover.NeverStuck | src/server/ServersRing.cpp:221-275 | Until all is quiet some event other than a crash is enabled. |
| Users.ReleaseMatchesPair | src/util/user.cpp:55-77 | The code's release is the documented one exactly when no other front end has a session of the same client id (and the id is not the FE's address). |
| Users.User.ReleaseSession | src/util/user.cpp:63-77 | The loop leaves exactly the sessions its test does not match, in order. |
| Groups.Group.RegisterNewSession | src/server/Group.cpp:101-128 | The user list, the result and the notice of a new user, on the primary only. |
| Groups.Group.GetUserFromConnectionId | src/server/Group.cpp:224-233 | The index of the first user with exactly this session, or none. |
| Groups.Group.DisconnectSession | src/server/Group.cpp:165-178 | One session out: list, counter and leave notice. |
| Groups.Group.GetAllActiveConnectionIds | src/server/Group.cpp:251-259 | All sessions of all users, in list order. |
| Groups.Group.DisconnectFrontEnd | src/server/Group.cpp:139-146 | The loop over a snapshot while the list itself shrinks. |
| Groups.Group.HandleDisconnectEvent | src/server/Group.cpp:135-153 | Both kinds of disconnect event, on the objects in place. |
| FeDisconnect.FeLoopPurges | src/server/Group.cpp:139-146 | After any number of rounds exactly the front end's sessions seen so far are gone and every counter has dropped by its own. |
| FeDisconnect.DisconnectIsPurge | src/server/Group.cpp:135-178 | A disconnect event takes out exactly the sessions meant and keeps the group tidy: names and client ids distinct, nobody without a session. |
| FeDisconnect.DisconnectIsExact | src/server/Group.cpp:135-178 | All and only these sessions are gone, each counter drops by the number removed, and exactly the users no longer listed are announced. |
| FeDisconnect.DisconnectTwice | src/server/Group.cpp:135-178 | Repeating a disconnect changes nothing. |
| FeDisconnect.UnknownClientChangesNothing | src/server/Group.cpp:165-178 | Disconnecting a client that is not in the group changes nothing. |
| FeDisconnect.JoinIsExact | src/server/Group.cpp:110-127 | A join adds exactly its session and keeps the group tidy; it is refused exactly at two sessions in the group. |
| FeDisconnect.JoinConns | src/server/Group.cpp:110-127 | A join adds its session if it is accepted and takes none away. |
| Servers.Server.RegisterUserToServer | src/server/server.cpp:83-107 | Run by one thread alone: reservation and insertion, creating the group if need be. |
| Servers.Server.CloseClientConnection | src/server/server.cpp:326-330 | The event reaches every group, with one set of counters. |
| Servers.Server.ProcessReceivedPacket | src/server/server_group_manager.cpp:36-43 | A message is queued in its group, or dropped if there is none. |
| ServerRuns.CloseIsExact | src/server/server.cpp:326-330 | In every group exactly the sessions meant are gone; the primary queues one notice, with text and group, for each user who thereby leaves, a backup none; each counter drops by the number of sessions closed. |
| ServerRuns.JoinIsDone | src/server/server_group_manager.cpp:18-30 | The first group of the name, or a new one, gets the session and the answer is 0, or -1 at two sessions; a new user is announced by the primary and by no backup; other groups stay. |
| ServerRuns.JoinIsHandled | src/server/server.cpp:83-107 | A user with two sessions, in whichever groups, is refused and nothing changes; anybody else gets the session. |
| ServerRuns.RunIsAccounted | src/server/server.cpp:337-351 | In every run of one server each counter is the number of the user's sessions, at most two, and all groups are tidy. |
| ServerRuns.GroupsKeepTheirMessages | src/server/Group.cpp:214-217 | In every run, what a group has queued or recorded is exactly the messages sent to it since it exists, in order, once, with sender, text, group and time. |
| ServerRuns.ConsumerRecordsAll | src/server/Group.cpp:43-62 | After as many steps as there are messages the queue is empty, and all but the notifications are recorded, in order. |
| SessionAccounting.ConnectionsAreAccounted | src/server/server.cpp:83-107 | In every reachable state each counter equals the user's open sessions, the joins admitted but not inserted and the sessions in group objects that have been replaced, and is at most 2. |
| SessionAccounting.AdmittedJoinSucceeds | src/util/user.cpp:43-51 | The group never refuses a join the server admitted. |
| SessionAccounting.RefusedExactlyAtLimit | src/server/server.cpp:342-344 | A join is refused exactly when open, reserved and lost sessions make two. |
| SessionAccounting.ConnectionsAreConserved | src/server/server_group_manager.cpp:18-30 | If joins that find a group missing do not overlap, each counter is the open and the reserved sessions, and a join is refused exactly when these make two. |
| SessionAccounting.ConservedExactlyWithoutOverlap | src/server/server_group_manager.cpp:22-26 | When a join finds its group missing, the counters stay exact in all runs that follow if and only if no other join is between finding that group missing and creating it. |
| SessionAccounting.OverlapLoses | src/server/server_group_manager.cpp:22-26 | From any reachable state in which two joins have found the same group missing, a run loses a session. |
| SessionAccounting.TwoJoinsLoseASession | src/server/server_group_manager.cpp:22-26 | From the start, two joins can leave a user counted once with nothing open and nothing reserved. |
| SessionAccounting.LostForGood | src/server/server.cpp:342-344 | Lost sessions never come back: a user who has lost two is refused ever after, holding nothing. |
| SessionAccounting.LosesBoth | src/server/server_group_manager.cpp:22-26 | Four joins to two new groups can do that: the user holds nothing, nothing is under way, and every continuation refuses the user. |
| SessionAccounting.GroupsStayTidy | src/server/Group.cpp:101-178 | Every reachable group is tidy, so the disconnect theorems apply to it. |
| LostFrontEnds.ForgottenExactly | src/server/server.cpp:282-310 | In every reachable state, every complete disconnection of a front end that admits no more joins leaves no session on it in any group, whatever runs beside it, if and only if none of its joins is under way (those apart that hold a replaced group). |
| LostFrontEnds.ComesTooLate | src/server/server.cpp:83-107 | With such a join under way, a run completes the disconnection and then inserts the session. |
| ReplicaAgreement.ConsumingIsInvisible | src/server/Group.cpp:45-58 | Consuming a message leaves the lines recorded and to be recorded as they are. |
| ReplicaAgreement.HandleSimulates | src/server/server.cpp:244-263 | A packet's effect on tables, counters and lines does not depend on role, clock or queues. |
| ReplicaAgreement.ImageOfRun | src/server/server.cpp:505-519 | What a server holds, up to times, is a function of the packets alone. |
| ReplicaAgreement.ReplicasAgree | src/server/server.cpp:505-519 | After the same packets a backup has the primary's counters, groups, users, sessions and lines, although only the primary announces joins and departures. |
| Replication.BackupsHold | src/server/server.cpp:213-238 | Under any interleaving, connection, loss and crash, a backup in the map has applied exactly the packets replicated since it connected, in order, but perhaps the one in progress. |
| Replication.AcknowledgedSurvives | src/server/server.cpp:213-251 | Every message acknowledged is, at its place, with every backup in the map that connected before it was replicated. |
| Replication.AcknowledgedOnce | src/server/server.cpp:244-251 | No replicated message is acknowledged twice. |
| Replication.BackupsAgree | src/server/server.cpp:214-238 | Of two connected backups the later one holds the end of what the other holds, outside the critical section; if they have missed the same they differ by the packet in progress at most. |
| Replication.PrimaryConserves | src/server/server.cpp:244-263 | What the primary has applied and its threads still hold is, as a multiset, what was replicated and what it did by itself. |
| Replication.ReceivedIsHandled | src/server/server.cpp:214-264 | Every message, join and disconnection received is replicated once or waits for it, and no keep-alive is; when all is quiet the primary has applied exactly these and its own disconnections. |
| Replication.MessagesAreAcknowledged | src/server/server.cpp:244-251 | When all is quiet exactly the replicated messages have been acknowledged. |
| Replication.ConnectsMidway | src/server/server.cpp:219-234 | A backup that connects in the middle of a replication gets the packet in progress exactly if the loop over the map has not got past its socket. |
| Replication.OneThreadKeepsReplicasEqual | src/server/server.cpp:204-264 | With one front-end thread whose front end is not lost, whenever it is idle a backup's packets are the primary's from the moment on when it connected. |
| Replication.TwoThreadsReorder | src/server/server.cpp:238-251 | From every start with two threads and a live backup some run ends with the backup and the primary in different orders. |
| Replication.ThenGone | src/server/server.cpp:266-268 | A front end that is lost after its packet has been handled leaves the primary one disconnection ahead of every backup. |
| Replication.ThenConnects | src/server/server.cpp:439-470 | A backup that connects between two packets gets the second one only, and that one is acknowledged. |
| Replication.ReplicationManager.Replicate | src/server/server.cpp:219-234 | The loop over the map: each backup's log grows by the packet if it applies it, and exactly the silent ones are erased. |
| ReplicatedData.ServersHoldData | src/server/server.cpp:244-263 | Two servers in either role that have handled the same packets hold the same data. |
| ReplicatedData.OneFrontEndKeepsData | README.md:16-17 | With one front end, which stays, every connected backup that has missed no join holds the primary's counters, groups, users, sessions and lines whenever all is quiet. |
| ReplicatedData.ConnectingExactly | src/server/server.cpp:439-470 | With one front end, which stays, a backup that connects while all is quiet holds the primary's data from then on, in every run, if and only if nobody has joined before. |
| ReplicatedData.LateBackupDiffers | src/server/server.cpp:439-470 | A join, a new backup, an acknowledged message: all is quiet, and the backup has neither the group nor the message. |
| ReplicatedData.DropIsIdle | src/server/server.cpp:282-310 | Dropping a front end leaves the tables as they are exactly if no session is open on it. |
| ReplicatedData.OneFrontEndGone | src/server/server.cpp:282-310 | After the loss of the only front end a backup that has missed no join holds the primary's data exactly if no session was open there. |
| ReplicatedData.EqualDataExactly | README.md:16-17 | As long as no front end is lost, the data of all connected backups that have missed no join are equal to the primary's in all quiet states of all runs if and only if there is at most one front end. |
| ReplicatedData.EqualDataDespiteLossExactly | README.md:16-17 | If front ends may be lost too, if and only if there is no front end. |
| ReplicatedData.EqualDataDespiteLatenessExactly | README.md:16-17 | If no front end is lost but backups may connect at any time, if and only if there is no front end. |
| Semaphores.NeverTooMany | src/util/Semaphore.cpp:13-24 | Waiters number max(0, -m_value), threads past wait never exceed the initial value, and nobody waits while a slot is free. |
| Semaphores.NewcomerTakesOnlyFreeSlot | src/util/Semaphore.cpp:13-19 | A newcomer passes exactly if a slot is free that was handed to nobody. |
| Semaphores.BinaryExcludes | src/util/Semaphore.cpp:13-24 | A semaphore of initial value 1 excludes. |
| Semaphores.SpuriousExcess | src/util/Semaphore.cpp:13-24 | With spurious wake-ups, the threads past wait exceed the initial value by at most their number, and exceed it exactly while there have been more of them than notifications that found nobody. |
| Semaphores.ExcessIsReached | src/util/Semaphore.cpp:16-18 | For every initial value and every k, k spurious wake-ups can put k threads too many past wait. |
| Semaphores.Semaphore.Wait | src/util/Semaphore.cpp:13-19 | The new counter and whether the thread blocks. |
| Semaphores.Semaphore.Post | src/util/Semaphore.cpp:21-24 | The new counter and which waiter, if any, is notified. |
| LockRank.OperationsRespectRanks | src/server/server.cpp:282-330 | Every operation takes its semaphores in rank order and gives them all back, whatever its branches and loops do. |
| LockRank.JoinRespectsRanks | src/server/Group.cpp:101-128 | So does a join, with its history read, its notice and the section of a new user's constructor (src/util/user.cpp:12-16). |
| LockRank.ConsumeRespectsRanks | src/server/Group.cpp:43-62 | So does consuming a message. |
| LockRank.ServingRespectsRanks | src/server/server.cpp:149-174 | So does the loop that starts the threads of the front ends, which waits under one semaphore for another that its threads post. |
| LockRank.ChildGivesBack | src/server/server.cpp:176-198 | The semaphore handed to a new thread is given back by it, after the address book's. |
| LockRank.DeadlockFree | src/server/server.cpp:149-198 | In every reachable state of any number of threads, those started on the way included, if some thread is inside an operation, some thread can step. |
| LockRank.NoRaces | src/server/Group.cpp:110-152 | In every reachable state no two threads are about to touch the same counters, users, message queue, addresses, sockets, keep-alive times or start arguments: whoever is holds the semaphore that guards them. |
| WakeUpQueue.FifoAndAwake | src/server/Group.cpp:32-68 | consumed ++ in hand ++ queued is everything pushed, in order, and a non-empty queue is being drained, flagged, or about to be. |
| WakeUpQueue.DrainsCompletely | src/server/Group.cpp:240-245 | Once pushing stops, the consumer handles everything in a bounded number of steps. |
| FrontEndSlots.SentExactlyOnce | src/proxy_fe/ProxyFE.cpp:524-568 | For any number of client threads and failed sends, what was written is what was accepted, in order and once, but for the one in the slot. |
| FrontEndSlots.SlotNeverOverwritten | src/proxy_fe/ProxyFE.cpp:565-567 | The slot is written only when everything accepted before has been sent. |
| FrontEndSlots.ArrivalIsAlwaysPossible | src/proxy_fe/ProxyFE.cpp:560-565 | A client thread can always bring its next message to the semaphore. |
| FrontEndSlots.NeverStuck | src/proxy_fe/ProxyFE.cpp:529-537 | As long as a message is on its way, some step other than a failed send is enabled. |
| FrontEndSlots.ProxyFE.SendToServer | src/proxy_fe/ProxyFE.cpp:541-558 | Whenever servers come and go, the packet is written once, at the first attempt that finds one. |
| Clients.Client.SendNext | src/client/client.cpp:68-90 | One message is sent and waited for, or the queue is empty. |
| PacketText.CutKeeps | src/client/client.cpp:126-140 | A text survives the packet exactly if it has no NUL and at most 253 characters. |
| PacketText.CutIsLongest | src/client/client.cpp:126-140 | What is left of a text is its longest beginning of at most 253 characters without a NUL. |
| EndToEnd.HistoryIsPrefixOfTyped | src/server/Group.cpp:52-58 | Place by place, in every failure-free run with any number of clients, front ends and groups, a client's recorded texts are a prefix of what it typed, after the cut. |
| EndToEnd.EverythingArrives | src/client/client.cpp:60-92 | Place by place, when nothing can move any more, the history holds everything the client typed. |
| EndToEnd.OneOutstanding | src/client/client.cpp:84-88 | At most one message or ACK of a client is under way, exactly while it waits. |
| Pipeline.EventKeeps | src/proxy_fe/ProxyFE.cpp:518-568 | Every ticket at a front end's semaphore belongs to the one thread that has that text in hand, and every queue is awake, after every step. |
| Pipeline.StepMatches | src/proxy_fe/ProxyFE.cpp:560-568 | With all semaphores, mutexes and flags, each step is one step of `EndToEnd`, or none. |
| Pipeline.Refines | src/client/client.cpp:60-92 | So each run is a run of `EndToEnd`. |
| Pipeline.GoesOn | src/server/Group.cpp:32-68 | Whenever `EndToEnd` can move something, some thread can step here: no wake-up is lost. |
| Pipeline.HistoryIsPrefixOfTyped | src/server/Group.cpp:32-68 | In every reachable state of the full system a client's recorded texts are a prefix of what it typed, after the cut. |
| Pipeline.EverythingArrives | src/client/client.cpp:60-92 | When no thread can do anything any more, the history holds everything the client typed. |
| Delivery.WorkFalls | src/proxy_fe/ProxyFE.cpp:524-568 | Every step but typing brings the messages nearer to the histories, or is a failed send and changes nothing. |
| Delivery.EverythingIsDelivered | src/client/client.cpp:60-92 | From any reachable state, without further input, the threads take a bounded number of steps besides failed sends, in any order; when they can take no more, the histories hold everything that was typed. |
| HistoryRecords.GetLines | src/util/file_system_manager.cpp:54-62 | The getline loop cuts a text at every delimiter, with no last empty piece. |
| HistoryRecords.PiecesOfTerminated | src/util/file_system_manager.cpp:90-92 | Lines free of the newline, written with endl, are read back as they were. |
| HistoryRecords.TerminatedOfPieces | src/util/file_system_manager.cpp:90-104 | Reading a file and writing its lines again gives the same bytes. |
| HistoryRecords.ReadTimePrinted | src/util/file_system_manager.cpp:64-67 | Every long printed is read back, negative times included. |
| HistoryRecords.ReadTimeOfDigits | src/util/file_system_manager.cpp:64-67 | A time with blanks, a sign, digits and anything after them is read as this number, or the nearest long. |
| HistoryRecords.ReadTimeOfOther | src/util/file_system_manager.cpp:64-67 | Without a digit after blanks and sign it is read as 0. |
| HistoryRecords.LineRoundTrip | src/util/file_system_manager.cpp:24-72 | A written line gives its message back exactly when neither user nor text holds character 31, empty texts included. |
| HistoryRecords.LineWithSeparator | src/util/file_system_manager.cpp:54-72 | A text with the separator comes back without what follows the first one, with a time read from there. |
| HistoryRecords.FileRoundTrip | src/util/file_system_manager.cpp:24-72 | Written and read as bytes, messages survive exactly when all their fields are free of newline and character 31. |
| HistoryFiles.FileIsEndOfLog | src/util/file_system_manager.cpp:82-112 | Over any mix of appends and reads the file is a suffix of all lines ever written, has at least the last min(N, total), and at most N + 1 after the first real operation. |
| HistoryFiles.ReadFindsLastLines | src/util/file_system_manager.cpp:42-50 | Each read finds exactly the last min(N, total) lines. |
| HistoryFiles.BytesFollowLines | src/util/file_system_manager.cpp:29-33 | At every step the bytes of the file are its lines, each ended by a newline. |
| HistoryFiles.HistoryIsLastMessages | src/util/file_system_manager.cpp:42-77 | Down to the bytes: a read gives back exactly the last N messages, those found in an older file followed by those recorded since. |
| HistoryFiles.GroupsAreIndependent | src/util/file_system_manager.cpp:17-35 | Over any operations on any groups, each group's file is what the operations on that group make of it. |
| HistoryFiles.ManagerKeepsConfigured | src/util/file_system_manager.cpp:42-118 | After any operations on any groups, a read finds exactly the last messages of its group, as many as are configured, or 10 if the configured number is not positive. |
| HistoryFiles.CopyFrom | src/util/file_system_manager.cpp:98-104 | The copying loop writes every line from the cut on: its `i > 0` test drops none. |
| HistoryFiles.ParseLines | src/util/file_system_manager.cpp:54-72 | Every line becomes its message, or some line has fewer than three cells. |
| HistoryFiles.FileSystemManager.CropToFileHistoryLimit | src/util/file_system_manager.cpp:82-118 | Only this group's file changes, to its last lines, and only if it is longer than the configured number, or 10. |
| HistoryFiles.FileSystemManager.AppendGroupMessageToHistory | src/util/file_system_manager.cpp:17-35 | Crop, then one line more; a notification is not recorded. |
| HistoryFiles.FileSystemManager.ReadGroupHistoryMessages | src/util/file_system_manager.cpp:42-77 | Crop, then the messages of the lines left. |
| ConnectionMonitors.GivenUpExactlyWhenSilent | src/util/ConnectionMonitor.cpp:42-51 | A check gives a connection up exactly if no refresh within the last 10 seconds was left standing by the kills. |
| ConnectionMonitors.KilledIsNoticed | src/util/ConnectionMonitor.cpp:62-66 | A killed connection is given up at the next check. |
| ConnectionMonitors.DetectionWindow | src/util/ConnectionMonitor.cpp:42-51 | A connection last heard of at r is given up at a time in [r + 10, r + 10 + gap), gap being the time between checks. |
| ConnectionMonitors.ConnectionMonitor.KeepsMonitoringConnection | src/util/ConnectionMonitor.cpp:32-54 | The loop ends at the first check that finds the connection silent, and not before. |
| ConnectionMonitors.ConnectionMonitor.Monitor | src/util/ConnectionMonitor.cpp:18-30 | It ends exactly if some check finds the connection silent, at the first one that does, and then the entry is erased. |

## Left out

- Sockets, binding, accepting, thread creation, signals and printing; networks are sequences of packets and sets of live servers.
- Crashes while an election message is in flight, simultaneous crashes and servers that come back: the source does not handle them in this protocol (a restarted server binds the first free port).
- A server's repeated attempts while its next server has not started yet: `Failover` begins with all servers connected.
- The moment between a crash and its notice by each neighbour, and the race on the `disconnected` flag between the accepting and the connecting thread: one event notices both.
- An election text without a number, where `stoi` throws, and ids that do not fit a port: `ReadText` then has no value and `ProcessElectionInfo` is not called.
- Replication across a change of primary: the backup threads keep their role, so `Replication` covers one tenure.
- The thread of a lost front end and the monitor's thread, which both close its connection: `Replication` closes it once.
- Replication.AcknowledgedSurvives: a backup that has left the map, because its connection broke, or that connected after the message was replicated, is not claimed to have the message.
- Servers.Server.RegisterUserToServer: one thread at a time, on a table of values; `SessionAccounting` has the group objects and the interleavings. The groups are visited in order of creation, where the source's map orders them by name.
- LockRank.NoRaces: the data that no semaphore guards are not among those it speaks of: groupMap, rm_connect_sockets_fd, the history files and the flag isPrimaryServer.
- Single accesses to groupMap and to rm_connect_sockets_fd, each a std::map used without a semaphore, are taken to be atomic; a new socket has a number not used before.
- The packets sent to users (ACCEPT, refusal, history, broadcasts) and their delivery through the address book.
- Pipeline.HistoryIsPrefixOfTyped: joins, disconnects and failures are not part of these runs, and the cropping of the file is treated in `HistoryFiles`.
- JOIN and DISCONNECT packets, which front ends send beside the slot.
- `Server::feAddresses` and its purge, except as operations in `LockRank`; there, closeServer is a thread like the others, where the source runs it in a signal handler.
- The semaphores of the front end's process in `LockRank`: they are never held while another is taken.
- Spurious wake-ups, except in `Semaphores.SpuriousExcess`.
- Temporary files and renaming: a file's content is replaced at once, and appends and reads of a group do not overlap.
- HistoryFiles.FileSystemManager.ReadGroupHistoryMessages: a line of fewer than three cells yields None, where the source reads past the end of a vector.
- Raw memory, casts and buffers other than the cut of texts; socket descriptors that are reused.
- Random UUIDs: client ids are taken to be distinct.
