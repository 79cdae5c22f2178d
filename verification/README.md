# A verified model of a replicated file system

A group of peers keeps mirrored copies of a directory tree. Before a peer performs a file
operation it asks all others: it broadcasts a request, every other peer broadcasts a vote, and
each peer decides alone, by counting one message from every other peer. This project models that
commit protocol, the conflict clocks that decide between contending requests, the connection pool
underneath, and the mirrored file operations on top, and proves what the whole gives its users.

## How it is laid out

| files | what they hold |
|---|---|
| `Names`, `Messages`, `Sets` | the order on peer names, wire messages, counting |
| `Registry`, `Conflicts`, `Responses` | the transaction registry, the conflict loop and the response tally as classes and loops, each proved against a pure specification |
| `Replication` | the protocol as a step system that uses those specifications |
| `ReplicationInvariant`, `ReplicationSteps`, `ReplicationSafety` | the inductive invariant, its preservation step by step, its consequences in one state |
| `ReplicationTheorems`, `Exclusion`, `Outcomes`, `Scenarios` | what holds over whole runs, what each step leads to, and runs that show where a stronger promise fails |
| `Fairness`, `Rounds`, `Contest` | the arithmetic of the clocks, rounds of contention in runs and the exact waiting time, and runs in which such rounds happen |
| `Pool`, `PoolTraces`, `Perspective`, `Broadcasting`, `Framing`, `Backoff` | the connection layer |
| `Mirror`, `Requests`, `Effects`, `Convergence`, `EndToEnd`, `Divergence` | file operations, what a request of each kind does, what undoes it, reordering them, replicas of one protocol run, and a run in which they diverge |

The protocol is a deterministic step system: start, local conflict check, broadcast, drop,
deliver, rendezvous on the notification channel, vote, time out, decide, mirror, delete. A run is
any interleaving of steps of two or more hosts, with any number of transactions, arbitrary initial
clocks, arbitrary loss and reordering, arbitrary timeouts and arbitrary answers from the mirror.
Delivery is at most once and transaction ids are fresh (they are Version 4 UUIDs, section 4.4 of
RFC 4122). A registry entry that was deleted and is then recreated by a late message is a new
incarnation; objects are indexed by incarnation, which is what makes the counting arguments exact.

Promises that the code does not keep are stated as such, with what does hold:

- Commit is not atomic: a peer may mirror a request whose issuer timed out (`CommitIsNotAtomic`).
  An owner that is done committed if and only if all others voted ACK and it took a message from
  every other host (`CommitsExactly`); once anybody committed, nobody is *refused*, and whoever is
  done succeeded if and only if it took them all (`NoSplitDecision`).
- Two conflicting requests can both commit (`BothCanCommit`). It takes a vote of the winner's
  initiator on the loser outside the winner's registered lifetime (`BothCommitted`), and any vote
  inside it excludes the loser for good (`ConditionalExclusion`).
- A late response recreates the initiator's own transaction with no request, and that handler can
  commit (`MirrorsNothing`). Mirror is then called with a nil request, dereferences it
  (mirror/mirror.go:25) and the process dies; the model's host takes no further step for it.
  `MirroredRequest` shows that this is the only such case.
- Replicas need not converge, even if one peer issues its requests one after the other and each
  call has succeeded before the next: two others may mirror them in opposite orders
  (`OppositeOrders`, `ReplicasDiverge`). They do converge when the requests are disjoint
  (`ReplicasConverge`). For overlapping pairs on one path the exact conditions are given for two
  writes (`WriteOrders`), a write and a mode change (`WriteSetattrOrders`) and a write and an
  unlink (`WriteUnlinkOrders`).
- The two ends of a connection may disagree once a counter reaches 64; `SymmetryFails` gives the
  exact condition. Below 64 the two ends may still install different crossing connections
  (`CrossingMayDiffer`); they are sure to install the same one if and only if at most one attempt
  is acceptable (`SameConnection`).
- A lost round brings a peer exactly one round nearer to its turn if and only if no loser's clock
  wraps around at 2^64 (`WaitShrinks`).
- Without jitter the backoff reaches its maximum exactly when the first step grows by a whole
  nanosecond or it starts there (`ReachesMax`); otherwise it never moves (`Stuck`).
- Mirrored writes truncate first, so of two writes to one path only the last leaves a trace
  (`LastWriteWins`). A write that creates the file gives it mode 0, so a process that is not root
  fails to open it for the second write and the first one stands; permissions are not enforced in
  the model.

Where comments and code disagree, the model follows the code: the examples in the comment on the
resolvent byte (connection/perspective.go:58-61) show the client as 01 and the server as 10, while
the constants are server 1 and client 2; the comment in `Encode` speaks of four counter bits
where six are used; and the comment on conflict resolution (p2p/conflicts_resolver.go:51-52) speaks
of the winner's clock being incremented, while it is the loser's.

## Model

| member | source | states |
|---|---|---|
| `Registry.Transactions.Put` | p2p/transaction.go:43-67 | the registry afterwards, object by object: one entry absorbs the message, no other entry or object changes, and `created` tells exactly whether the id was new |
| `Registry.Transactions.Delete` | p2p/transaction.go:70-74 | exactly that entry is gone, all other objects keep their contents |
| `Registry.AbsorbedNacks` | p2p/transaction.go:55-64 | after any list of messages, a NACK is stored if and only if one arrived |
| `Registry.AbsorbedCount` | p2p/transaction.go:55-64 | one request among responses, in any position, leaves that request, its sender and exactly the other messages' responses |
| `Names.LessIsPrecedes` | p2p/conflicts_resolver.go:91 | the comparison of names is dictionary order: the first runs out inside the second, or has the smaller character at the first place where they differ |
| `Conflicts.ConflictsResolver.DetectAndResolveConflict` | p2p/conflicts_resolver.go:63-96 | the loop, in any order over the registry, reports a conflict if and only if some registered request of another peer names the same two paths and has a greater clock, or an equal clock and a name that comes later in dictionary order |
| `Conflicts.ConflictsResolver.IncrementClock` | p2p/conflicts_resolver.go:26-28 | the clock rises by one and wraps at 2^64 |
| `Conflicts.HigherTransitive` | p2p/conflicts_resolver.go:86-93 | priority is transitive, so refusals cannot form a cycle |
| `Conflicts.BeatsTotal` | p2p/conflicts_resolver.go:86-93 | of two contenders from different peers exactly one wins |
| `Responses.CountErrors` | p2p/host.go:223-230 | the counters are the exact number of NACKs per error and `rejected` tells whether there is any |
| `Responses.CountOthers` | p2p/host.go:232-239 | the sum is zero if and only if conflicts are the only error counted |
| `Responses.ProcessResponses` | p2p/host.go:222-249 | permitted if and only if every response is ACK; the clock rises by one, and from 2^64 - 1 to 0, if and only if the count of conflicts is positive and the count of every other error is zero |
| `ReplicationSteps.StepKeepsInv` | p2p/host.go:120-318 | every step of every host keeps the invariant tying registries, owners, stored messages, votes and packets together |
| `ReplicationSteps.RunInv` | p2p/host.go:120-318 | so the invariant holds in every state of every run |
| `ReplicationSafety.SendersCount` | p2p/host.go:201-210 | an incarnation holds at most one message per sender, so as many messages as distinct senders, none from the host itself |
| `ReplicationSafety.RunGrows` | p2p/host.go:120-318 | over a run, issued requests, votes, incarnations and outcomes once reached are never taken back |
| `ReplicationTheorems.Unanimity` | p2p/host.go:274-318 | if any owner, in any incarnation, reaches the commit branch, every host but the initiator voted ACK |
| `ReplicationTheorems.CommitsExactly` | p2p/host.go:145-166 | an owner that is done committed if and only if every host but the initiator voted ACK and it took a message from every other host |
| `ReplicationTheorems.NoSplitDecision` | p2p/host.go:120-166 | once one owner commits a transaction, no owner of it at any host, earlier or later, ends refused or in conflict; it ends in success if and only if it took n-1 messages, and else timed out or could not send |
| `ReplicationTheorems.CompleteMessageSet` | p2p/host.go:281-304 | a non-initiator handler that finishes its loop took exactly one message from each other host within one incarnation: the request as issued and the vote of everybody else |
| `ReplicationTheorems.MirroredRequest` | p2p/host.go:306-317 | a committing handler holds a request if and only if it is not at the initiator, and then the issued one |
| `ReplicationTheorems.CommitsOnce` | p2p/host.go:201-209 | a host commits a transaction in at most one incarnation, however often its entry is recreated |
| `ReplicationTheorems.PartialDeliveryAborts` | p2p/host.go:135-163 | while one peer has not received the request, every owner everywhere holds at most n-2 messages and none has committed |
| `ReplicationTheorems.RegistryOwnership` | p2p/host.go:89-96 | entries and owners that have not deleted theirs correspond one to one, an owner that returned deletes its own incarnation, and the registry is empty if and only if every owner is done |
| `ReplicationTheorems.StoreIsPut` | p2p/transaction.go:43-67 | the listener step of the protocol changes the registry exactly as `Put` is proved to |
| `ReplicationTheorems.RegisterIsPut` | p2p/host.go:127-128 | so does the start of a Replicate call, which registers its own request |
| `ReplicationTheorems.DeleteIsDelete` | p2p/transaction.go:70-74 | the delete step changes it exactly as `Delete` is proved to |
| `ReplicationTheorems.ClockRises` | p2p/host.go:130-133 | a clock changes only by one, at its own host, by a Replicate call that ends in a conflict or refused by conflicts only |
| `ReplicationTheorems.LossRaisesClock` | p2p/host.go:240-243 | and every such ending does raise it |
| `ReplicationTheorems.ClockRisesOnce` | p2p/host.go:120-166 | one Replicate call raises the clock at most once in a run |
| `ReplicationTheorems.ClockRisesOnLossOnly` | p2p/host.go:120-166 | a Replicate call that raised the clock is never successful at any time of the run |
| `Exclusion.HolderRefuses` | p2p/host.go:290-302 | a host that holds a winning request votes NACK on the loser, and it is its first and only vote on it |
| `Outcomes.VoteRule` | p2p/host.go:290-302 | in every run a vote is ACK if and only if Consult said ACK and no held request of another peer for the same paths has priority; what Consult refuses is voted with Consult's own error, what only a held request refuses as a conflict, and the packets of the step are exactly that vote |
| `Outcomes.RefusedByConsult` | p2p/host.go:290-317 | if Consult refuses a transaction at any host, no owner of it commits anywhere, before or after |
| `Outcomes.AcceptedByConsult` | p2p/host.go:290-317 | if anybody commits, every host but the initiator had voted at a moment when Consult accepted and nothing it held stood in the way |
| `Outcomes.CheckRule` | p2p/host.go:130-133 | a Replicate call ends in a conflict before it sends if and only if its host holds a request that stands in the way, and else goes on to send |
| `Outcomes.BroadcastRule` | p2p/host.go:135-148 | the call ends at once if and only if a peer was down beforehand or every send failed, and else waits for exactly the peers whose send succeeded; what it sends is its request as issued |
| `Outcomes.DecisionRule` | p2p/host.go:159-166 | the decision by what was heard: a partial broadcast fails to send, a NACK heard or voted refuses, anything else succeeds or mirrors |
| `Outcomes.OtherErrorKeepsClock` | p2p/host.go:233-243 | a Replicate call that is ever given a NACK with an error other than a conflict never changes its host's clock |
| `Outcomes.AtMostOnce` | p2p/host.go:185-201 | a packet is taken off the network once in a run: it is delivered or lost, and neither again |
| `Outcomes.NeverStuck` | p2p/host.go:120-166 | in every reachable state every owner has its next step open to it, whatever sends fail or arrive and whatever Consult says; the one exception is a handler at the initiator called to mirror without a request |
| `Outcomes.PacketsMove` | p2p/host.go:185-201 | any packet may be lost at any time, and may arrive exactly when the listener of its host is idle |
| `Exclusion.ConditionalExclusion` | p2p/host.go:290-317 | if any host votes on a request while it holds a conflicting one of higher priority, the lower one commits nowhere, before or after |
| `Exclusion.BothCommitted` | p2p/conflicts_resolver.go:63-96 | if two conflicting requests both commit, the winner's initiator voted on the loser at a moment when its own Replicate call was not registered |
| `Exclusion.RefusalsPointUp` | p2p/host.go:292-296 | every conflict refusal, local or by vote, has an issued request of another peer on the same paths with strictly higher priority |
| `Exclusion.SomeContenderSurvives` | p2p/conflicts_resolver.go:71-94 | on every contended path pair some issued request is refused for conflict by no host and not locally |
| `Scenarios.CommitIsNotAtomic` | p2p/host.go:145-158 | for any two peers and any request there is a run in which the peer commits it and its issuer times out |
| `Scenarios.MirrorsNothing` | p2p/host.go:201-208 | for any two peers and any request there is a run in which the issuer gives up, the late answer recreates the transaction there, and its handler commits with no request |
| `Scenarios.ConsultCanRefuse` | p2p/host.go:291-298 | for any two peers, any request and any error but a conflict there is a run in which the peer votes that error and the issuer is refused with its clock as before |
| `Scenarios.BothCanCommit` | p2p/conflicts_resolver.go:86-93 | for any two requests where one beats the other there is a run in which both commit |
| `Rounds.LossHasRival` | p2p/host.go:130-133 | in a round of contention every call that ends refused or in conflict is outranked by another request of the round |
| `Rounds.LostToConflicts` | p2p/host.go:222-243 | a call of the round that is refused by vote heard conflicts and no other error |
| `Rounds.RoundRule` | p2p/conflicts_resolver.go:86-93 | in every run, if any set of hosts contend once for one path pair with their current clocks, then exactly the contender with the greatest (clock, name) succeeds, exactly the others lose, and exactly the losers' clocks rise, by one, however the steps interleave |
| `Rounds.BystanderClock` | p2p/host.go:130-133 | a host that makes no call of its own in the round keeps its clock, however it votes |
| `Rounds.SeriesRule` | test/connection_e2e_test.go:191-232 | over any number of such rounds in a run, each among contenders of its own and each request carrying its host's clock, a call succeeds exactly when the clock recurrence from the first round says so |
| `Rounds.ExactFairness` | p2p/conflicts_resolver.go:86-93 | if all hosts contend in every round, a host's Replicate calls fail in every round before the one numbered by its wait, the sum over the others of max(0, c_j - c_i + [name_j > name_i]), and succeed in that one |
| `Rounds.FairRotation` | p2p/conflicts_resolver.go:86-93 | from equal clocks the n rounds are won by the n hosts in turn, the greatest name first, and leave the clocks equal again |
| `Contest.RoundsHappen` | p2p/host.go:120-166 | for any two hosts, any path pair, any clocks and any number of rounds there is a run in which the two contend in that many rounds, one after another |
| `Contest.TakingTurns` | p2p/conflicts_resolver.go:47-52 | from equal clocks there is a run of two such rounds in which the greater name wins the first and the loser of the first wins the second |
| `Fairness.TopExists` | p2p/conflicts_resolver.go:86-93 | with distinct names there is one such maximum and it outranks everybody else |
| `Fairness.WaitShrinks` | p2p/host.go:240-243 | a lost round shortens the wait by exactly one if and only if no loser's clock wraps around |
| `Fairness.EqualWait` | p2p/conflicts_resolver.go:90-93 | from equal clocks the wait is the number of peers with greater names |
| `Pool.StepKeepsInv` | connection/pool.go:114-162 | every step of handlers, watchers and Close keeps the handler count, the active count and the lock holders exact |
| `Pool.NothingComesUp` | connection/pool.go:214-238 | after Close saw zero handlers, no step but a new Run makes a dead connection alive |
| `Pool.Quiescence` | connection/pool.go:114-142 | when Close has returned all connections are dead, no lock is held and the active count is zero |
| `Pool.StaysQuiet` | connection/pool.go:149-162 | and this stays so under every interleaving until the next Run |
| `Pool.BroadcastGate` | connection/pool.go:171-173 | whenever no connection lock is held the shared count is the number of alive connections, and the gate is open if and only if all are alive; in every other state, if and only if all are counted |
| `PoolTraces.Admission` | connection/pool.go:150-156 | a handler that checks is let in if and only if Close has not been called since the pool was last run |
| `PoolTraces.HandlersCanLeave` | connection/pool.go:158-162 | in every reachable state every handler has its next step open to it, and one that was let in may give up, so none has to keep Close waiting |
| `PoolTraces.AnyPattern` | connection/connection.go:103-158 | from every initial pool every pattern of living and dead connections can come about, through handlers and watchers |
| `PoolTraces.UpDownUp` | connection/pool.go:97-142 | from every initial pool there is a trace in which all connections come up and the gate opens, Close takes all down, and after the next Run all come up and the gate opens again |
| `Broadcasting.MultiErr.Append` | connection/errors.go:32-39 | the peer's error is recorded and no other entry changes |
| `Broadcasting.Broadcast` | connection/pool.go:166-188 | for every completion order the recorded peers are exactly those whose send failed, each with its own error; nothing is sent if and only if the counts differ |
| `Broadcasting.AwaitedResponses` | p2p/host.go:135-143 | Replicate returns at once exactly on a closed gate or when every send failed, and else waits for the peers minus the failures |
| `Broadcasting.AwaitedIsExact` | p2p/host.go:141-158 | with unique names that number is the number of successful sends |
| `Broadcasting.AwaitedInProtocol` | p2p/host.go:135-163 | the protocol step waits for exactly that number, and a partial broadcast is marked as one |
| `Perspective.RoundTrip` | connection/perspective.go:154-173 | decoding the encoded resolvent gives it back if and only if the counter is below 64 |
| `Perspective.WireByte` | connection/perspective.go:13-17 | the byte on the wire is 01 and the counter from the server, 10 and the counter from the client |
| `Perspective.PerspectivesDiffer` | connection/perspective.go:120-123 | whatever the counter, an end never reads its own perspective from the other end |
| `Perspective.Conclusion` | connection/perspective.go:113-131 | on any bytes: broken if and only if they are not one byte or carry the end's own perspective, accepted if and only if they are not broken and the counters agree or the dialler's name comes first in dictionary order |
| `Perspective.SymmetricVerdict` | connection/perspective.go:77-131 | below 64 both ends reach the same verdict, which is accept if and only if the smaller name dialled or the counters agree |
| `Perspective.SymmetryFails` | connection/perspective.go:154-173 | over all 32-bit counters, the ends disagree if and only if the dialler's name is not the smaller, exactly one counter has reached 64 and the low six bits agree |
| `Perspective.Connection.Resolve` | connection/perspective.go:77-131 | the attempt takes the next number, sends it with the perspective, and concludes as the specification of one end does |
| `Perspective.Connection.Install` | connection/connection.go:131-141 | a dead connection is installed and counted once; a living one is left untouched |
| `Perspective.Connection.Establish` | connection/connection.go:103-148 | installs exactly when it was dead and the verdict is accept; every failure leaves connection, perspective and count alone |
| `Perspective.Connection.Close` | connection/connection.go:221-244 | a living connection is dead afterwards, uncounted once, with its numbering restarted; a dead one is left untouched |
| `Perspective.AttemptRule` | connection/connection.go:116-129 | an attempt of the smaller-named peer is accepted by both ends, one of the larger-named peer by both if and only if both gave it the same number |
| `Perspective.InstallInOrder` | connection/connection.go:131-141 | whatever the order in which the handlers of one end take the lock, with verdicts reached before, the first accepted attempt is installed and counted, and no other |
| `Perspective.CrossingDials` | connection/connection.go:116-141 | whatever the numbers and the orders, ends that concluded the same attempts are both alive or both dead, alive if and only if one attempt was the smaller name's or numbered alike |
| `Perspective.EndsMayDiffer` | connection/connection.go:131-141 | of any two acceptable attempts there are orders in which one end installs the one and the other end the other |
| `Perspective.SameConnection` | connection/connection.go:116-141 | the ends install the same connection for all pairs of orders if and only if at most one attempt is acceptable |
| `Perspective.CrossingMayDiffer` | connection/connection.go:131-141 | two crossing dials numbered alike at both ends can leave each end with a different connection |
| `Framing.ExactlyTheFrame` | connection/net_op.go:31-70 | recv returns a payload if and only if the stream starts with that payload's frame |
| `Framing.RoundTrip` | connection/net_op.go:95-102 | recv of what send wrote is the payload, and every strict prefix is the header or the body error |
| `Framing.TopBitRejected` | connection/net_op.go:42-45 | a header is rejected as invalid if and only if its top bit is set |
| `Framing.PutUint64` | connection/net_op.go:96-97 | the header buffer is filled with the length, highest byte first |
| `Framing.Send` | connection/net_op.go:95-102 | the stream grows by exactly the frame |
| `Framing.Recv` | connection/net_op.go:37-69 | the result is what the stream's bytes stand for, error kinds included |
| `Framing.SendThenReceive` | connection/net_op.go:31-117 | one end's payload is the other end's result |
| `Backoff.Backoff.Next` | connection/backoff.go:36-49 | the delay stays in [Initial, Max] for every jitter, the first after a reset is Initial |
| `Backoff.Backoff.Reset` | connection/backoff.go:91-99 | the counter and the delay are back at their start |
| `Backoff.Retry` | connection/pool.go:269-276 | without jitter the k-th of a series of failed dials waits for the k-th delay of the recurrence, whatever the draws |
| `Backoff.JitterIsCapped` | connection/backoff.go:69-78 | the jittered growth lies within the cap around the plain growth, and of four draws in a row two raise it |
| `Backoff.NextIsProduct` | connection/backoff.go:58-88 | without jitter the next delay is the last one times the factor rounded down, or the nearer bound when that lies outside |
| `Backoff.NextIsJittered` | connection/backoff.go:69-88 | with jitter it is that product changed by the drawn percentage, rounded down and kept within the bounds |
| `Backoff.NeverFalls` | connection/backoff.go:58-88 | without jitter delays never fall between resets |
| `Backoff.Climbs` | connection/backoff.go:64-87 | once the first step grows by a whole unit every step does, until the maximum |
| `Backoff.Stuck` | connection/backoff.go:64-80 | if the first step does not grow by a whole unit, the delay stays at Initial for ever |
| `Backoff.ReachesMax` | connection/backoff.go:58-88 | the maximum is reached if and only if the delay starts there or the first step grows by a whole unit, and then within Max - Initial steps |
| `Mirror.MoveAt` | mirror/mirror.go:40-43 | after a move every path under the new name holds what the same path under the old name held, the old subtree is gone, all else is as before |
| `Mirror.Frame` | mirror/mirror.go:24-87 | an operation changes nothing outside the subtrees its request names |
| `Requests.ComponentsJoin` | mirror/mirror.go:209-211 | the components of two texts joined by a slash are those of the first and then those of the second |
| `Requests.ComponentsOfWord` | mirror/mirror.go:209-211 | text without a slash is one component, unless it is empty or a single dot, which is none |
| `Requests.CreateRule` | mirror/mirror.go:26-31 | CREATE succeeds if and only if the path holds a file, or nothing in a directory; then and only then an empty file with masked permissions is new there, and nothing else changes |
| `Requests.MkdirRule` | mirror/mirror.go:36-39 | MKDIR succeeds if and only if the path holds nothing and lies in a directory; a directory with masked permissions is then there, and nothing else changes |
| `Requests.RenameRule` | mirror/mirror.go:40-43 | RENAME succeeds if and only if the old path holds something, the new one is no directory, lies in a directory and not below the old one, and a directory does not replace a file; then all that was at and below the old path is at and below the new one, and nothing else changes |
| `Requests.RemoveRule` | mirror/mirror.go:44-45 | RMDIR and UNLINK alike succeed if and only if the path holds a file or a directory with nothing below it; the path is then empty and nothing else changes |
| `Requests.SetattrRule` | mirror/mirror.go:46-49 | SETATTR succeeds if and only if the path holds something, whose permissions become the nine bits asked for while nothing else changes |
| `Requests.WriteRule` | mirror/mirror.go:50-59 | WRITE empties a file, or creates one with no permissions, whatever the offset; it succeeds if and only if it could open the file and the offset is not negative, and then the file holds zeros up to the offset and the data |
| `Requests.CopyRule` | mirror/mirror.go:60-82 | COPY_FILE_RANGE puts as many bytes as there are from the old path over those of the new one, and succeeds if and only if they are as many as asked for, or the call failed and -1 was asked for |
| `Effects.CreateThenRemove` | mirror/mirror.go:26-31 | a created file is empty with masked permissions, creating it again changes nothing, removing it restores the tree |
| `Effects.MkdirThenRemove` | mirror/mirror.go:36-39 | a made directory has masked permissions, making it again fails, removing it restores the tree |
| `Effects.RenameBack` | mirror/mirror.go:40-43 | renaming to a free name and back restores the tree, subtrees included |
| `Effects.WriteReadsBack` | mirror/mirror.go:50-59 | after a write the file holds the data at the offset, zeros before it and nothing else, under its old mode |
| `Effects.LastWriteWins` | mirror/mirror.go:50-59 | of two writes to one path only the last leaves a trace, in tree and in result |
| `Effects.CopyReadsBack` | mirror/mirror.go:60-82 | a copy that succeeds puts the source range at the destination offset and changes no other byte, mode or file |
| `Effects.LastModeStands` | mirror/mirror.go:46-49 | of two mode changes the last stands, nothing but the mode changes, and setting the old mode undoes a change |
| `Convergence.Locality` | mirror/mirror.go:24-87 | what an operation does and returns depends only on the tree above, at and below the paths it names |
| `Convergence.Commute` | mirror/mirror.go:24-87 | requests with prefix-disjoint paths commute, in tree and in results |
| `Convergence.Converge` | mirror/mirror.go:24-87 | equal trees that mirror the same multiset of pairwise disjoint requests, in any two orders, end equal |
| `Convergence.MirrorAll` | mirror/mirror.go:24-87 | a replica that mirrors a list of requests, failing ones included, ends with the tree of that history |
| `Convergence.MirrorOnBoth` | mirror/mirror.go:24-87 | two equal replicas that mirror the same disjoint requests, each in its own order, are equal afterwards |
| `Convergence.ApplyKeepsForm` | mirror/mirror.go:24-87 | every operation keeps every node inside a directory |
| `EndToEnd.MirroredIsCommitted` | p2p/host.go:306-317 | every transaction a host mirrored is one it committed |
| `EndToEnd.MirroredOnce` | p2p/host.go:201-209 | no host mirrors a transaction twice in a run |
| `EndToEnd.MirroredAsIssued` | p2p/host.go:317 | the requests handed to Mirror are, one by one, the requests as their initiators issued them |
| `EndToEnd.ReplicasConverge` | p2p/host.go:317 | two hosts that mirrored the same transactions of a run, in whatever order, hold equal trees if those requests are disjoint |
| `Divergence.OppositeOrders` | p2p/host.go:274-318 | for any three hosts and any two requests that one of them issues, the second after the call for the first has succeeded, there is a run in which the other two mirror both in opposite orders |
| `Divergence.ReplicasDiverge` | p2p/host.go:317 | if these are writes to one path that leave different trees, the two replicas of that run end different |
| `Divergence.WriteOrders` | mirror/mirror.go:50-59 | for two writes to one path both orders give the same tree if and only if each write alone gives the same tree |
| `Divergence.DifferentData` | mirror/mirror.go:50-59 | successful writes of different data at one offset leave different trees |
| `Divergence.WriteSetattrOrders` | mirror/mirror.go:46-59 | for a write and a mode change of one path both orders give the same tree if and only if the path exists, has nowhere to be created, or the mode is empty |
| `Divergence.WriteUnlinkOrders` | mirror/mirror.go:44-59 | for a write and an unlink of one path both orders give the same tree if and only if the path has nowhere to be created or is a directory that is not empty |

## Left out

- FUSE bindings and the local operations in rfs/: wrappers around go-fuse and system calls. They do not set the request clock, so the clock is an input to a Replicate call.
- Mirror.Consult: its checks of the file system; any answer but a conflict NACK, which it never gives, is allowed at any time. On an existing path RMDIR yields no response and the vote crashes; a crashed host is one that takes no further step.
- Symbolic and hard links: LINK and SYMLINK requests are excluded from the file operations, since following links makes the paths an operation touches depend on the tree.
- Permission enforcement, set-user-id and sticky bits, and ".." inside paths: permission bits are stored, not enforced, and paths are taken as cleaned.
- Equality of the initiator's own tree with the mirrored ones: the initiator writes through the loopback without truncation, so only mirroring peers are compared.
- Effects.CopyReadsBack: a copy moves all the bytes there are, as the model has no short copies by the kernel.
- Requests.CopyRule: the same; short copies by the kernel are not modelled.
- QUIC, TLS, gzip and protobuf encoding: foreign libraries.
- Framing.Recv: does not model read timeouts and cancellation, since it reads a stream that then ends.
- Framing.Send: does not model a write that fails or is cancelled part way; the receiving side of that is every strict prefix in Framing.RoundTrip.
- Real timers: timeouts are steps that may happen at any time. Backoff keeps the attempt and the delay, not the timer.
- Backoff.Backoff.Next: floats are reals, so rounding and overflow of a duration are not modelled; a jitter cap between 0 and 0.01 is excluded since the random draw panics on it.
- Perspective.Connection.Establish: one call after another; other calls between the verdict and the lock are covered by Perspective.InstallInOrder and by the pool's step system.
- Data races on unlocked reads (the conflict loop over the registry, the status fast path): each read is one atomic snapshot.
- Liveness: that the listener, which may block for ever on a channel nobody reads, or the dial loop makes progress.
- Host.Close against transactions that arrive while it drains; the source notes this gap itself.
- SetConflictsClock during a run, and a second Pool.Close before the next Run.
- Rounds.ExactFairness: as long as no loser's clock wraps around at 2^64 within the wait, since a wrapped clock loses its priority; Fairness.WaitShrinks shows that every wrap breaks the count.
- Rounds.FairRotation: for clocks that do not reach 2^64 within the n rounds, for the same reason.
- Effects.LastWriteWins: permission bits are not enforced, so a file created with mode 0 can be opened again.
- EndToEnd.ReplicasConverge: disjoint requests are enough for convergence; overlapping ones may commute too, and exact conditions are given for a write against a write, a mode change or an unlink of its path only.
- Contest.RoundsHappen: shows rounds of two hosts; that three or more can contend in one round is not shown by a run.
- Duplicate delivery: each packet arrives at most once, as a QUIC stream gives it.
- Configuration, logging, the command line and the log marshalling methods.
