# Verified model of the ISIS total-order multicast and its ledger

The repository builds a replicated bank ledger out of four layers: B-multicast over TCP connections,
R-multicast (first receipt is relayed, then delivered), ISIS total ordering (ask, vote, announce, hold
queue), and the ledger that applies deposits and transfers in delivery order. A separate program counts the
copies a cheaper relay scheme sends. This project models these layers and proves what they are for.

## How the parts fit

| file | what it holds |
|---|---|
| Order, Sums | the order on keys and strings; sums over finite maps |
| Heap, HoldQueue | heap order on values; the hold queue as a class over shared item objects with positions |
| Votes, Node | vote maxima and quorums; one ordering node as a value |
| OrderingNode | the same node as the program runs it: index map, array heap, pop-while-agreed loop |
| NodeRuns, Failures | one node over any events; exactly when it skips a message, and what skipping and ejection cost |
| Isis, TotalOrder, Counting | N nodes agreeing over an ideal multicast, each free to take others for dead; logs; how far the counters get |
| Skipping, Divergence | runs of that machine: exactly when order survives timeouts, and one in which it does not |
| RMulticast, Reliability | R-multicast over FIFO channels with crashes, ejection and loss; agreement and cost |
| BMulticast, MulticastNode | the sender table and the R-multicast handlers of one process, as classes |
| System, Guarantees, Termination | ISIS on top of R-multicast in one state machine; safety and progress over its runs |
| Ledger, Snapshot, ReplicatedLedger | balances in 64-bit ints; the sorted printout; replication |
| Simulator, SimulatorRuns | the message-counting simulator and what every run of it counts |

The classes carry the program's own fields and loops, and each method is tied to a function on values;
the protocol theorems are about those functions. `System` is where the layers meet: a handler there knows a
message only from the copy it received, and `System.StepRefinesIsis` shows that every step of the stack is a
step of ISIS over an ideal multicast. Everything about logs, numbers and ledgers is then transported to the stack.

## Modelling assumptions

- Each handler is one atomic step. The ask handler releases the sequence locks before it takes the queue
  lock (`total_ording.go:196-199`); the ordering results need proposing and pushing to be one step. Order per
  sender also needs dedup, relay and handling (`r_multicast.go:77`, `:85`, `:91`) to be one step across
  connections, while the server runs one goroutine for each connection (`server.go:56`).
- The results about the whole stack are about runs without ejection. The collector compares a vote count with
  the current member count, and after an ejection that count no longer means that every live node has voted:
  `Votes.CountIsQuorumIff` says when it still does, `Failures.EjectionAnnouncesEarly` shows an announcement that
  comes too early. Timeouts alone, with votes counted against all N nodes, are covered by `Isis`, `TotalOrder` and
  `Skipping`; R-multicast and the single-node results cover crashes, ejection and skipping.
- Membership includes the node itself (`cmd/mp1/root.go:62`), and start-up is complete.
- Message ids are fresh (`message.go:65`, `message.go:97`). With R-multicast's at-most-once delivery that makes every
  ask new to the node it reaches (`Guarantees.AsksAreNew`), so `OrderingNode.HandleAsk` keeps its node in order.
- The meaning of an item's process changes: its source before agreement, the winning proposer after.
- A channel is reliable and FIFO between live nodes. After its sender crashed, a channel may lose what is
  still on it from the end, and a B-multicast cut short by a crash may have reached any part of the group.
- Votes travel by unicast and wait in a Go channel; they are modelled as one bag from which any vote can
  be counted next, which allows every order the program can show.
- `uint64` counters wrap at 2^64 and the ledger's `int` is 64 bits wide and wraps. The ordering results hold
  while N times the messages submitted stays below 2^64 (`Guarantees.WithinCounters`); that this keeps every
  counter from wrapping is proved, not assumed.
- `container/heap` is the standard library's; `Up`, `Down`, `HeapPush`, `HeapPop` and `Fix` in `HoldQueue` follow
  its public contract. The program never reads an item's position after it is popped.
- Clock readings, and the nodes to which a write fails, are parameters of the handlers.

Two places where design and code differ. The design says that all messages of a crashed process without a
final number are rejected after 6 seconds. The code only looks at the head of the queue, only while it handles an
announcement of a held message, skips at most one message each time, and counts the 6 seconds from the first time
it looked: `Failures.SkipsIff` states exactly when a message is skipped, `Failures.StaysHeld` gives a history
in which one is still held, whatever the clock says. And the design promises total order, while skipping is a local decision: a node that is told late skips
a message that another node delivers, and their logs part for good (`Failures.TimeoutsBreakOrder`, and
`Divergence.GroupDiverges` for a whole group).
`Skipping.LogsComparableIff` states exactly when two logs still agree.

## Model

| member | source | states |
|---|---|---|
| HoldQueue.HoldQueue.Less | lib/mp1/multicast/to_hold_queue_item.go:34-48 | The comparison is the three-level order: sequence number, then unagreed before agreed, then process |
| Order.StringLessIff | lib/mp1/multicast/to_hold_queue_item.go:47 | One string is less than another exactly if they agree up to a place where it ends or has the smaller character |
| HoldQueue.HoldQueue.Swap | lib/mp1/multicast/to_hold_queue_item.go:50-54 | Exchanges two items and keeps every item's recorded position right |
| HoldQueue.HoldQueue.Push | lib/mp1/multicast/to_hold_queue_item.go:56-61 | Appends an item and records its position |
| HoldQueue.HoldQueue.Pop | lib/mp1/multicast/to_hold_queue_item.go:63-71 | Removes the last item, marks it as out of the queue, leaves the rest as it was |
| HoldQueue.HoldQueue.Peek | lib/mp1/multicast/to_hold_queue_item.go:73-76 | Returns an item that no other is less than |
| HoldQueue.HoldQueue.HeapPush | lib/mp1/multicast/total_ording.go:210 | Adds exactly one item and keeps heap order and positions |
| HoldQueue.HoldQueue.HeapPop | lib/mp1/multicast/total_ording.go:289 | Removes exactly the root, which is a minimum, and keeps heap order and positions |
| HoldQueue.HoldQueue.Fix | lib/mp1/multicast/to_hold_queue_item.go:82 | Restores heap order after a change of any one item, up or down, and keeps the same items |
| HoldQueue.HoldQueue.Update | lib/mp1/multicast/to_hold_queue_item.go:78-83 | Re-keys one item in place: contents differ in that item only, heap order and positions hold again |
| Heap.UpStep | lib/mp1/multicast/to_hold_queue_item.go:34-54 | One sift-up swap moves the only possible heap failure one level up |
| Heap.DownStep | lib/mp1/multicast/to_hold_queue_item.go:34-54 | One sift-down swap with the lesser child moves the only possible heap failure to that child |
| Heap.RootIsLeast | lib/mp1/multicast/to_hold_queue_item.go:73-76 | In a heap the root is a minimum, so peeking is enough to decide on delivery |
| Heap.RaisedOnlySinks | lib/mp1/multicast/to_hold_queue_item.go:78-83 | Raising a key never calls for a sift-up, so re-keying on agreement only ever sinks the item |
| Votes.MaxOfArrayProposalItem | lib/mp1/multicast/util.go:26-47 | Fails exactly on an empty table, otherwise returns a lexicographic (number, voter) maximum of it |
| Votes.MaxOfArrayUint64 | lib/mp1/multicast/util.go:12-24 | Fails exactly on an empty slice, otherwise returns its maximum |
| Votes.MaxVoteIsGreatest | lib/mp1/multicast/util.go:26-47 | The recursive definition of the announced vote is an upper bound of all votes and one of them |
| Votes.CountIsQuorumIff | lib/mp1/multicast/total_ording.go:116-122 | A table at or above the member count covers all members exactly when as many of its voters are not members as it is longer than the count |
| Failures.EjectionAnnouncesEarly | lib/mp1/multicast/total_ording.go:107-126 | A collector that counts an ejected node's vote announces without a live member's vote, and below the number that member holds the message under |
| OrderingNode.OrderingNode.constructor | lib/mp1/multicast/total_ording.go:50-71 | A new node represents the fresh abstract node |
| OrderingNode.OrderingNode.HandleAsk | lib/mp1/multicast/total_ording.go:184-219 | Proposes, files and queues a new item and sends the vote if the source can be written to; a failed write ejects the source and publishes the new count, and nothing else changes the sender table; map and heap keep matching, and the abstract node has proposed, exactly if the message was not already held |
| OrderingNode.OrderingNode.HandleAnnounce | lib/mp1/multicast/total_ording.go:237-302 | Refines the abstract announcement step: unknown messages only raise the counter; otherwise re-key, then deliver heads for as long as they are agreed, then deal with one unagreed head |
| OrderingNode.OrderingNode.Drain | lib/mp1/multicast/total_ording.go:261-299 | The loop delivers one head after another, each agreed and minimal among what is then pending, and stops only at an empty queue or an unagreed head |
| OrderingNode.OrderingNode.AwaitRoot | lib/mp1/multicast/total_ording.go:264-283 | An unagreed head is kept if its source has a sender; otherwise its source is timed once, at the first look, and the head skipped when more than 6 seconds have passed since |
| OrderingNode.OrderingNode.RemoveRoot | lib/mp1/multicast/total_ording.go:288-289 | Takes a head out of map and heap alike |
| OrderingNode.OrderingNode.CollectVote | lib/mp1/multicast/total_ording.go:107-126 | With the new vote in its table, a table short of the member count is kept; otherwise a greatest of its votes is announced and exactly that table dropped |
| OrderingNode.OrderingNode.RecheckVotes | lib/mp1/multicast/total_ording.go:127-146 | On a member update exactly the tables still too short stay, each as it was; every other is dropped and, unless it is empty, announced exactly once, by its greatest vote |
| NodeRuns.AtMostOnce | lib/mp1/multicast/total_ording.go:209-289 | In every run of a node, crashes and skips included, each message asked is held, or delivered once, or skipped once, never two of these, and nothing else is anywhere |
| NodeRuns.VotesAreKept | lib/mp1/multicast/total_ording.go:107-146 | Until its message is announced a vote table holds every vote counted on it, in order, through all votes, announcements and member updates |
| NodeRuns.TablesAreDroppedIff | lib/mp1/multicast/total_ording.go:118-145 | A table is dropped exactly when a vote or a member update brings it up to the count it is checked against |
| Failures.ProposalIsNewIff | lib/mp1/multicast/total_ording.go:194-195 | A proposal exceeds both counters exactly while neither has reached the last uint64, where the increment wraps |
| Failures.TimerIff | lib/mp1/multicast/total_ording.go:265-272 | In every run whose counters have not run out, the clock of a source shows exactly the time of the first event at which the node stopped at an unagreed message of that source while not taking it for live |
| Failures.SkipsIff | lib/mp1/multicast/total_ording.go:264-281 | The 6-second rule, exactly: in every run whose counters have not run out, a message is skipped if and only if an announcement of a held message leaves it, unagreed, at the head, its source is not live, and more than 6,000,000,000 ns have passed since the first event at which the node found that source gone |
| Failures.SkipsAtMostOne | lib/mp1/multicast/total_ording.go:276-281 | No event skips more than one message |
| Failures.StaysHeld | lib/mp1/multicast/total_ording.go:264-273 | A history in which a crashed source's unannounced message is still held, whatever the clock says |
| Failures.SkipDiverges | lib/mp1/multicast/total_ording.go:276-281 | A message skipped at one node and delivered at position p at another leaves neither log a prefix of the other once the first has delivered more than p messages |
| Failures.DeliversWhenToldInTime | lib/mp1/multicast/total_ording.go:253-299 | A history in which a node delivers message 0 of a source that another node finds crashed |
| Failures.SkipsWhenToldLate | lib/mp1/multicast/total_ording.go:253-299 | A history with the same message and number in which the timeout passes first: the node skips message 0, delivers 1, 2 and 3, and ignores the announcement of 0 |
| Failures.TimeoutsBreakOrder | lib/mp1/multicast/total_ording.go:264-299 | Those two histories end in logs of which neither is a prefix of the other |
| Isis.HeldItemsDiffer | lib/mp1/multicast/to_hold_queue_item.go:34-48 | Any two items one node holds are strictly ordered, so the head depends on contents and not on heap layout |
| Isis.HeadPrecedesRest | lib/mp1/multicast/total_ording.go:261-289 | The head is strictly before everything else pending |
| Isis.ProposeKeepsNodeOk | lib/mp1/multicast/total_ording.go:194-210 | A proposal is new, above everything the node has seen or delivered, and does not wrap within the bound |
| Isis.AgreementRaises | lib/mp1/multicast/total_ording.go:253-259 | An announcement never overtakes its ask: unless the item has been skipped it is found, is not yet agreed, and its key strictly rises |
| Isis.AgreedKeysDistinct | lib/mp1/multicast/total_ording.go:194-208 | No two messages are agreed under the same (number, proposer) |
| Isis.FullTableCovers | lib/mp1/multicast/total_ording.go:116-122 | Reaching the member count means one vote of every member |
| Isis.FullTableIsQuorum | lib/mp1/multicast/total_ording.go:83-102 | The vote announced is at least every member's own proposal and equals one of them |
| Isis.FullTableIsLast | lib/mp1/multicast/total_ording.go:122-126 | When a table is full no other vote for its message is under way, so dropping it is final |
| Isis.TallyAnnounces | lib/mp1/multicast/total_ording.go:105-126 | Each message is announced at most once, and exactly when its table is full |
| Isis.AgreedWithinHandled | lib/mp1/multicast/total_ording.go:194-195 | An agreed number is somebody's proposal, hence at most the number of asks handled |
| Isis.InitialInv | lib/mp1/multicast/total_ording.go:50-71 | The protocol invariant holds before anything is submitted |
| Isis.NextKeepsInv | lib/mp1/multicast/total_ording.go:104-302 | Every submission, ask, vote and announcement keeps the protocol invariant, for any N, any number of messages, and whomever a node takes for live |
| Isis.NextStaysUndisturbed | lib/mp1/multicast/total_ording.go:264-281 | While every node takes all members for live, nobody times or skips anything and every delivery loop stops behind an unagreed head |
| TotalOrder.LogsHaveNoGaps | lib/mp1/multicast/total_ording.go:247-299 | Whatever is agreed below a delivered key, and not skipped, was delivered before it |
| TotalOrder.PendingIsAbove | lib/mp1/multicast/total_ording.go:194-195 | What a node still holds will not end below anything it has delivered |
| TotalOrder.SameKeySameEntry | lib/mp1/multicast/total_ording.go:286-295 | One key is one message with one body at every node |
| TotalOrder.LogsArePrefixesIff | lib/mp1/multicast/total_ording.go:184-302 | Total order, exactly: of two logs one is a prefix of the other if and only if neither node has skipped a message the other has delivered within the length of the shorter log |
| TotalOrder.LogsArePrefixes | lib/mp1/multicast/total_ording.go:184-302 | While nobody is taken for dead, of any two nodes' logs one is a prefix of the other |
| Skipping.LogsComparableIff | lib/mp1/multicast/total_ording.go:184-302 | The exact condition at every moment of every run in which nodes may take any others for dead |
| Skipping.OrderedWhileSourcesAreSeen | lib/mp1/multicast/total_ording.go:264-266 | Total order holds in every run in which each unagreed head a delivery loop stops at has its source taken for live |
| Divergence.GroupDiverges | lib/mp1/multicast/total_ording.go:264-299 | A run of a group of two in which one node takes the other for dead and both end up with logs of which neither is a prefix of the other |
| TotalOrder.LogsGrow | lib/mp1/multicast/total_ording.go:261-299 | No step ever takes back or reorders a delivery |
| Counting.NextKeepsCounted | lib/mp1/multicast/total_ording.go:194-195 | The asks handled are exactly the proposals made, summed over the nodes |
| Counting.HandledIsBounded | lib/mp1/multicast/r_multicast.go:77-78 | At most N asks are handled per message submitted |
| Counting.NumbersAreBounded | lib/mp1/multicast/util.go:5-10 | Sequence bound: counters, proposals and agreements are at most the asks handled, hence at most N times the messages |
| BMulticast.BMulticast.Unicast | lib/mp1/multicast/b_multicast.go:71-103 | Sends if there is a sender and the write succeeds; a failed write ejects that node alone and publishes the new count; an unknown node changes nothing |
| BMulticast.BMulticast.Multicast | lib/mp1/multicast/b_multicast.go:105-132 | Sends to exactly the nodes whose write succeeds, whatever the map order; ejects the others; the counts published run down one by one to the number left |
| BMulticast.CountdownIs | lib/mp1/multicast/b_multicast.go:121-130 | The counts published while k of n senders are ejected are n-1, n-2, down to n-k |
| MulticastNode.RMulticast.AddMsgIfNotExist | lib/mp1/multicast/r_multicast.go:33-42 | Says whether the id was new, and remembers it |
| MulticastNode.RMulticast.Multicast | lib/mp1/multicast/r_multicast.go:44-57 | What the R-multicast machine's issue does, copies, ejections and published counts included, whichever writes fail; a step of the machine when only writes to crashed nodes do |
| MulticastNode.RMulticast.Receive | lib/mp1/multicast/r_multicast.go:70-96 | What the machine's receipt does, whichever writes fail: relays exactly first receipts from others, delivers exactly first receipts; a step of the machine when only writes to crashed nodes fail |
| RMulticast.DeliverFacts | lib/mp1/multicast/r_multicast.go:70-96 | Receipt takes one copy, marks only first receipts, and adds copies only when relaying |
| RMulticast.StepKeepsInv | lib/mp1/multicast/r_multicast.go:70-96 | Reliability, at-most-once, FIFO in flight and on receipt, and the cost bound survive every step, crashes, ejections and losses included |
| Reliability.Agreement | lib/mp1/multicast/r_multicast.go:77-91 | In every run, with nothing under way between live nodes, they have all received the same messages and all that any of them issued |
| Reliability.OrderedIntegrity | lib/mp1/multicast/r_multicast.go:77-93 | In every run each message is received at most once, was issued, and comes after its issuer's earlier ones |
| Reliability.RelayCost | lib/mp1/multicast/b_multicast.go:121-122 | In every run one R-multicast costs at most N(N+1) sends |
| Reliability.MeasureFalls | lib/mp1/multicast/r_multicast.go:77-93 | Copies in flight plus N for each receipt still to come falls at every receipt |
| Reliability.MeasureIsNatural | lib/mp1/multicast/r_multicast.go:77-93 | That measure is never negative |
| Reliability.FailuresKeepMeasure | lib/mp1/multicast/b_multicast.go:121-130 | Crashes, ejections and losses never raise it |
| Reliability.RelayingEnds | lib/mp1/multicast/r_multicast.go:77-93 | After its last issue a run, failures included, holds at most as many receipts as the measure was then |
| System.StepRefinesIsis | lib/mp1/multicast/total_ording.go:162-302 | Refinement: every step of the stack is an ISIS step over an ideal multicast or leaves it alone |
| System.NextKeepsInv | lib/mp1/multicast/total_ording.go:162-302 | Every step keeps the layers linked: a node has proposed for exactly the asks, and heard exactly the announcements, it has received |
| System.HandlesInSubmissionOrder | lib/mp1/multicast/r_multicast.go:70-96 | A node that has proposed for a message has proposed for all earlier ones of the same sender |
| Guarantees.RunIsSound | lib/mp1/multicast/total_ording.go:162-302 | Every state of every run within the counter bound satisfies all invariants |
| Guarantees.AnnouncedIsGreatest | lib/mp1/multicast/total_ording.go:83-126 | In every run an announced key is at least every member's own proposal for the message and equals one of them |
| Guarantees.AgreementsStand | lib/mp1/multicast/total_ording.go:105-126 | A message is announced under one key for good, and no other message ever gets that key |
| Guarantees.AsksAreNew | lib/mp1/multicast/total_ording.go:184-210 | In every run an ask first reaches a node only while the node neither holds nor has delivered its message |
| Guarantees.AnnouncementsFindTheirItem | lib/mp1/multicast/total_ording.go:253-259 | In every run an announcement first reaches a node while its message is pending there under a strictly smaller key, so the lookup never fails and the item only sinks |
| Guarantees.SequenceBound | lib/mp1/multicast/total_ording.go:194-195 | In every run counters, proposals and agreed numbers are at most N times the messages submitted |
| Guarantees.LogsInKeyOrder | lib/mp1/multicast/total_ording.go:261-299 | Every log of every run is strictly increasing in agreed (number, proposer) |
| Guarantees.LogsOnlyGrow | lib/mp1/multicast/total_ording.go:261-299 | Logs are append-only along every run |
| Guarantees.TotalOrderDelivery | lib/mp1/multicast/total_ording.go:184-302 | Total order over runs: what one node has delivered at one moment and another at another moment are prefix-comparable |
| Guarantees.NothingArrivesLate | lib/mp1/multicast/total_ording.go:194-195 | No message, even one submitted later, is ever agreed below a delivered key without having been delivered before it |
| Guarantees.KeysFollowSubmission | lib/mp1/multicast/total_ording.go:162-195 | One sender's agreed keys increase in submission order |
| Guarantees.DeliversInSubmissionOrder | lib/mp1/multicast/total_ording.go:162-299 | A log holds one sender's messages in submission order without a gap |
| Guarantees.RunDeliversInSubmissionOrder | lib/mp1/multicast/total_ording.go:162-299 | The same along every run, against everything submitted by any later moment |
| Termination.WorkFalls | lib/mp1/multicast/total_ording.go:104-302 | A weighted measure of copies, votes and steps to come falls at every step that is not a submission |
| Termination.WorkIsNatural | lib/mp1/multicast/total_ording.go:104-302 | That measure is never negative |
| Termination.RunsEnd | lib/mp1/multicast/total_ording.go:104-302 | After the last submission of a run it takes at most as many more steps as its work measure says |
| Termination.CanSettle | lib/mp1/multicast/total_ording.go:261-299 | The delivery loop ends from every state and leaves a state the step allows |
| Termination.StepsUntilRest | lib/mp1/multicast/total_ording.go:104-302 | Progress: while anything is under way some step can be taken |
| Termination.RunsCanEnd | lib/mp1/multicast/total_ording.go:104-302 | From every state a run reaches, steps other than submissions lead to rest |
| Termination.RunsDrain | lib/mp1/multicast/total_ording.go:104-302 | When a run has come to rest, queues and vote tables are empty and all logs are one list of exactly the messages submitted |
| Ledger.Transaction.Deposit | lib/mp1/transaction/transaction.go:30-48 | Rejects negative amounts without effect; otherwise raises that one account, from 0 if it is new, and no other |
| Ledger.Transaction.Transfer | lib/mp1/transaction/transaction.go:50-82 | All four outcomes, in the code's order of checks; when accepted with distinct ends the source falls and the target rises by the amount and no other account changes; when rejected nothing changes |
| Ledger.DepositAcceptedIff | lib/mp1/transaction/transaction.go:34-37 | A deposit is accepted if and only if its amount is not negative |
| Ledger.TransferAcceptedIff | lib/mp1/transaction/transaction.go:54-69 | Each of the four outcomes of a transfer, if and only if; accepted means a non-negative amount and an existing source with the funds |
| Ledger.CoversIff | lib/mp1/transaction/transaction.go:66 | For a balance that is not negative, having the funds is covering the amount |
| Ledger.OverdrawnCovers | lib/mp1/transaction/transaction.go:66 | Concrete overdrawn balance whose difference wraps, so that the check lets the transfer through; no ledger within the conservation bound reaches it |
| Ledger.ApplyTakesEffect | lib/mp1/transaction/transaction.go:34-81 | For all balances and operations the effect account by account, with 64-bit wrap-around |
| Ledger.WrapIsCongruent | lib/mp1/transaction/transaction.go:46 | A wrapped sum is the one 64-bit value congruent to it modulo 2^64 |
| Ledger.ApplyAccounts | lib/mp1/transaction/transaction.go:30-82 | One operation changes the total by exactly what it deposits or, for a self-transfer, mints; while that total stays below 2^63 nobody is overdrawn and nothing wraps |
| Ledger.TransferConservesIff | lib/mp1/transaction/transaction.go:71-80 | An accepted transfer conserves money and overdraws nobody exactly when its ends differ or it moves nothing, whatever it moves, if the total before it is below 2^63 |
| Ledger.SelfTransferCounterexample | lib/mp1/transaction/transaction.go:71-80 | Concrete self-transfer that turns 5 into 8 |
| Ledger.LedgerBalances | lib/mp1/transaction/transaction.go:30-82 | For every log the accounts hold exactly the accepted deposits plus what self-transfers minted, while that fits 64 bits |
| Ledger.LedgerConserves | script/unix/mp1/gentx.py:44-48 | With distinct ends throughout, the accounts hold exactly the accepted deposits, while those total below 2^63 |
| Snapshot.SortedIsUnique | lib/mp1/transaction/transaction.go:117 | There is one way to sort a set of accounts |
| Snapshot.BalancesSnapshotStdSortedString | lib/mp1/transaction/transaction.go:105-124 | The text is that of the sorted accounts, whatever order the map is ranged over in |
| Snapshot.BalanceReadsBack | lib/mp1/transaction/transaction.go:120 | Reading back what is printed for a balance gives the balance |
| Snapshot.TextTellsBalances | lib/mp1/transaction/transaction.go:119-123 | Two printouts of the same accounts are equal only if all balances are |
| Snapshot.PrintedExample | lib/mp1/transaction/transaction.go:108-123 | The text for two given balances, letter by letter |
| ReplicatedLedger.LedgersAgree | lib/mp1/transaction/processor.go:25-61 | Any two nodes that have delivered equally many messages, at whatever moments, hold equal balances |
| ReplicatedLedger.DeliveryTakesEffect | lib/mp1/transaction/processor.go:25-61 | A node's balances start empty, and delivering one more message has exactly the effect of its operation, account by account |
| ReplicatedLedger.LedgersConverge | lib/mp1/transaction/processor.go:25-61 | When a run has come to rest all ledgers are equal |
| ReplicatedLedger.LedgersConserve | lib/mp1/transaction/processor.go:25-61 | At every node in every run, without self-transfers and while accepted deposits total below 2^63, nobody is overdrawn and balances add up to those deposits |
| Simulator.Group.constructor | cli/r-multicast/main.go:105-132 | N nodes, an empty channel for every ordered pair, counter 0 |
| Simulator.PartlyStep | cli/r-multicast/main.go:60-65 | One send at a time: sending one more of the copies a node has set out to send is one step of the machine |
| Simulator.Group.Send | cli/r-multicast/main.go:60-65 | Counts one copy and puts it on its channel: one step of the machine |
| Simulator.Group.BM | cli/r-multicast/main.go:47-67 | Sends one copy to every node, to itself first, and counts N, whatever the map order; the whole is a sequence of machine steps that leaves nothing owed |
| Simulator.Group.BMA | cli/r-multicast/main.go:69-82 | Sends one copy to each higher node and counts each, whatever the map order; the whole is a sequence of machine steps that leaves nothing owed |
| Simulator.Group.BD | cli/r-multicast/main.go:84-103 | One turn of the receive loop is the machine's receipt, which drops repeats, notes first copies and owes one to each higher node unless the copy is the node's own, followed by one send for each copy owed, until nothing is |
| SimulatorRuns.RunInv | cli/r-multicast/main.go:47-103 | In every run, sends and receipts interleaved in any way, the copies owed on, waiting on and taken from each channel are those its sender owes it, and the counter shows the copies sent |
| SimulatorRuns.RunsAreShort | cli/r-multicast/main.go:84-103 | No run sends or handles more than N + N(N-1)/2 copies |
| SimulatorRuns.RunsCanEnd | cli/r-multicast/main.go:84-103 | Every run can be continued until everything is sent and handled; until then some copy can be sent or handled |
| SimulatorRuns.ChannelsNeverFill | cli/r-multicast/main.go:121 | A channel never holds more than two copies, so no send waits for room |
| SimulatorRuns.RestCounts | cli/r-multicast/main.go:47-103 | At rest every node has the body and the counter is N + N(N-1)/2, less N-1-src unless the source got its first copy from another node |
| SimulatorRuns.Turn | cli/r-multicast/main.go:89-100 | A turn continues a run of the machine, ending in the state the run theorems count |
| SimulatorRuns.Simulate | cli/r-multicast/main.go:134-142 | The program from start to rest, copies taken in any order: a run of the machine after which every node has the body and the counter shows the number of copies `RestCounts` gives |
| SimulatorRuns.LowestSourceNeverRelays | cli/r-multicast/main.go:72 | Node 0 as the source never passes its own message on, so its count does not depend on the schedule |
| SimulatorRuns.SourceMayKeepIt | cli/r-multicast/main.go:93 | Every source has a run in which it handles its own copy first |
| SimulatorRuns.SourceMayRelay | cli/r-multicast/main.go:93-96 | Every other source has a run in which another node's copy comes first |

## Left out

- TCP, dialing, handshakes, line scanning and start-up: a connection is a FIFO channel.
- JSON encoding, UUIDs and SHA-1: messages are values with fresh ids, and decoding cannot fail.
- Locks, lock-level interleavings and deadlock detection: each handler is one step.
- Total order under ejection: the code does not provide it, see `Failures.EjectionAnnouncesEarly`; runs of the whole stack are without ejection.
- BMulticast.BMulticast.Multicast: takes the nodes whose write will fail as a parameter.
- MulticastNode.RMulticast.Receive: is stated for a process that does not crash in the middle; a crash in the middle is a step of the `RMulticast` machine only.
- Snapshot.SortStrings: stands for the standard library's sort, of which only the result is stated.
- The lossy publish/subscribe broker between sender table and collector, the message router, retry, configuration, metrics and logging.
- The unsorted balance printout, whose text depends on map order, and the heap's debug snapshot.
- The first assignment's client and server, the command line, plotting scripts and build scripts.
