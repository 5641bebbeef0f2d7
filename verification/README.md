# Zypo: the ledger, its gossip, and the meters around it

Every Zypo node keeps a full copy of the ZPCN ledger: an account per peer
(balance, rating, history, and the IDs it has seen, each with a time stamp) and
a prepaid byte quota per peer. A node that applies a transaction for the first
time passes it on to its peers. Old stamps are pruned, a restart reloads the
files, and a sync, which nothing calls yet, copies the oracle's accounts. VPN sessions draw on the quotas,
and a limiter guards the streams that carry all of this.

The project models that machinery and proves what it keeps over whole runs:

- money is conserved, and what a restart or a sync adds is accounted for;
- no transaction is applied twice to an account within 30 days, and the 30 days
  are exact;
- gossip ends, and reaches everyone exactly once if nothing is lost;
- replicas that apply the same transactions agree, whatever the order;
- a batch of payments is applied in full, whatever the order, if and only if every
  payer can cover what it sends, with restarts and without;
- a connected network that starts in agreement and gossips such a batch can always
  settle, ends in agreement with the whole batch applied at every node, and takes
  an exact number of messages;
- nobody but an oracle falls below twice its rating;
- VPN traffic is bounded by what was paid, under every scheduling of every
  session, and for any number of sessions the bound is reached;
- how many streams of a peer the limiter can admit in an interval of any length,
  exactly: about 50 for each ten seconds begun and 49 more.

`dafny verify dfyconfig.toml` checks everything.

## How it is built

| file | what it holds |
|---|---|
| `LedgerSpec.dfy` | the ledger as a value, one function per critical section |
| `Sequences.dfy`, `Sums.dfy` | sequences without repeats, sums over maps |
| `NodeRuns.dfy` | one node over time: memory, disk, and any sequence of steps |
| `Economy.dfy` | the account records and the manager as objects updated in place, proved to take the steps of `NodeRuns` |
| `Rules.dfy` | what each critical section decides and changes, in plain figures |
| `Protocol.dfy` | the stream handler's transaction branch and the broadcast loop, tied to the gossip models |
| `Conservation.dfy`, `ReplayWindow.dfy`, `Histories.dfy`, `Replicas.dfy`, `Funding.dfy`, `CreditFloor.dfy`, `LocalPayments.dfy`, `Merging.dfy`, `Restarts.dfy`, `Undo.dfy`, `Quotas.dfy` | what the ledger keeps |
| `Gossip.dfy` | many nodes, one transaction, any order of deliveries |
| `Agreement.dfy`, `Traffic.dfy` | the whole network: many nodes, a batch of transactions, all of the above together; what it costs and that it settles |
| `Metering.dfy`, `Overrun.dfy` | the relay loops, all sessions of a peer on one quota, and a play that reaches the bound |
| `RateLimiting.dfy` | the stream limiter |
| `StreamTargets.dfy` | the order in which a client tries its peers |
| `Text.dfy`, `SignedPayments.dfy`, `LanDiscovery.dfy`, `DomainRecords.dfy` | the signed texts |

Assumptions. Amounts are exact reals and byte counts unbounded integers. A clock
never goes back and reads more than zero. Each method under the manager's mutex
is one step. What a signature check says (`verified`, `verifies`), what a string
decodes to (`knownOracle`, `isPeerID`) and which key a node holds for the oracle
are inputs; the last does not change during a run. Account records found in the
files are complete objects.

## What was found

- **Same millisecond.** The ID of a local payment is its millisecond. A second
  local payment in the same millisecond is a duplicate: it is handed back and
  broadcast as sent, and no money moves. Only the millisecond decides: a payment
  with credit and an otherwise unused ID is applied after the first if and only if
  it was made in another one (`LocalPayments.MillisecondDecides`).
- **Signed text.** It holds payer, payee, the amount to six decimals and the time,
  and tells apart exactly these (`SignedPayments.SignedTextTellsApart`). ID and
  comment are not in it. The replay check goes by the ID, so a signed payment under
  another ID counts as another payment, and under another comment as a prepayment
  or not (`SignedPayments.OtherIDIsAnotherPayment`): the 30 days are a promise about
  IDs.
- **Negative amounts.** The sign of an amount is not checked. A payment keeps the
  credit floor of all ledgers if and only if its amount is not negative, or it pays
  its own sender or an oracle (`CreditFloor.FloorNeedsNonNegativeAmounts`). A step
  keeps all quotas from going negative if and only if it is no prepayment of minus
  a byte or less, and no negative top-up (`Quotas.QuotasHoldIffFair`).
- **Local balance check.** It is a critical section of its own, so payments that
  each passed it can together take the balance below zero, down to the credit
  line. They can if and only if some of them cost more than the balance and not
  more than balance and credit line (`LocalPayments.PendingCanOverdraw`, and
  `LocalPayments.PairOverdraws` for two).
- **Order.** Two replicas that *apply* the same transactions agree. Two that only
  *receive* the same ones need not: the credit check can refuse a payment that
  arrives before the money for it. Every replica applies all of a batch in every
  order if and only if each payer can cover all it sends to others and, on top of
  that, each single payment to itself; otherwise some order loses a payment
  (`Funding.AppliesIfAndOnlyIfAffordable`). An account that is not open yet has the
  credit line of a new one, except on a command center, whose faucet may open it
  without a rating. If nodes may restart, the rating on disk counts too. Of two
  payments, one of which pays the payer of the other, the order matters if and only
  if the second needs the first (`Funding.OrderMattersIff`).
- **Rollback.** It restores the accounts if and only if the payment has two parties
  (or no amount), no history is full, no stamp of the ID is left, and every entry
  from the first with that ID on is the payment itself. A payment to oneself gets a
  refund it never paid for; a payment made once more after its stamp was pruned can
  lose its earlier entry. The prepaid quota stays credited
  (`Undo.RollbackRestores`). Nothing in the repository calls it.
- **Restarts and quotas.** Using traffic is not saved at once, so a restart gives
  back exactly what was used since the last save (`Quotas.QuotaAccounts`).
- **Sync.** Nothing in the repository calls `SyncWithOracle`, and a command center
  answers its request with 403 unless it comes from the node itself
  (`dot-zypo-common/node/protocol.go:206`). The results about syncs say what
  `MergeState` does once it is used.
- **Second sync.** A second sync with the same dump does nothing if and only if
  every entry of the dump was seen before or has a time that is not zero
  somewhere in that history (`Merging.RemergeIsIdle`).
- **Echo.** The comment on the broadcast says the message is not echoed to the
  sender; the code leaves out the payer of the transaction, not the peer it came
  from. The model follows the code, and gossip ends all the same.
- **Domain records.** Two records share a signed text if and only if the text splits
  into the same fields. So separators in a domain or an owner can move, and host
  lists can share a text: none and one empty host, or two hosts and one with a
  comma (`DomainRecords.MessageTellsApart`, `DomainRecords.HostsCanCollide`).

## Model

| member | source | states |
|---|---|---|
| Economy.EconomyManager.constructor | dot-zypo-common/node/economy.go:51-59 | a new manager is what a restart makes of the files, and its records are its own |
| Economy.EconomyManager.Snapshot | dot-zypo-common/node/economy.go:164-170 | the exported accounts are the ledger that the records hold |
| Economy.EconomyManager.ProcessTransaction | dot-zypo-common/node/economy.go:309-392 | the outcome is the decision on the old ledger, and memory and disk take the `Receive` step: both parties posted and saved if applied, empty accounts opened if refused or a duplicate, nothing if unverified |
| Economy.EconomyManager.CheckTransaction | dot-zypo-common/node/economy.go:327-352 | credit first, from which the known oracle, the command center itself and the mint address are exempt, then the replay check of both accounts |
| Economy.EconomyManager.PostRecords | dot-zypo-common/node/economy.go:355-374 | the two records, or the one record of a payment to oneself, each end posted exactly once |
| Economy.EconomyManager.CreditPrepaid | dot-zypo-common/node/economy.go:377-387 | a "VPN Prepay" to this node raises the payer's quota by the whole bytes of amount / price gigabytes; no other payment moves a quota |
| Economy.EconomyManager.CleanupSeenTxs | dot-zypo-common/node/economy.go:79-96 | every stamp older than 30 days goes, nothing else does, and the disk is written only if one went |
| Economy.EconomyManager.MergeState | dot-zypo-common/node/economy.go:173-202 | the merged ledger, whatever order the accounts are visited in; a dump that cannot be decoded changes nothing |
| Economy.EconomyManager.Load | dot-zypo-common/node/economy.go:98-147 | memory is rebuilt from disk with the repairs, the node's own account and the command center's fund |
| Economy.EconomyManager.RollbackTransaction | dot-zypo-common/node/economy.go:477-508 | refund, stamp removed and first history entry with the ID removed, for each party; a self-payment is refunded only |
| Economy.EconomyManager.HasFunds | dot-zypo-common/node/economy.go:397-403 | the balance check of a local payment, against the ledger of that moment |
| Economy.EconomyManager.FinishPayment | dot-zypo-common/node/economy.go:422-424 | the payment is processed in whatever state it finds, and handed back unless refused, even if it was a duplicate |
| Economy.EconomyManager.CreateTransaction | dot-zypo-common/node/economy.go:394-424 | both with nothing in between: nothing changes if the own balance is short or the signature fails; what is handed back has this payer, payee, amount, time and comment |
| Economy.EconomyManager.OpenFaucetAccount | dot-zypo-common/node/economy.go:511-518 | the payee of the faucet gets an empty account without a rating, not saved |
| Economy.EconomyManager.HasSeenTransaction | dot-zypo-common/node/economy.go:617-631 | true exactly when one of the two accounts has a stamp that is not zero |
| Economy.EconomyManager.AddPrepaidTraffic | dot-zypo-common/node/economy.go:604-609 | the quota grows and is saved |
| Economy.EconomyManager.ConsumePrepaidTraffic | dot-zypo-common/node/economy.go:633-643 | granted exactly when the quota covers it; then it is taken, and not saved |
| LedgerSpec.ProcessedAccount | dot-zypo-common/node/economy.go:354-374 | only the parties of an applied transaction change, and each is posted once |
| LedgerSpec.MergedFunds | dot-zypo-common/node/economy.go:187-188 | the oracle's balance and rating win |
| Protocol.Broadcast | dot-zypo-common/node/economy.go:571-601 | one message to each connected peer but the payer |
| Protocol.HandleEconomyTx | dot-zypo-common/node/protocol.go:180-197 | refused or undecodable means 400, anything else 200, and only a transaction that was new is passed on |
| Protocol.HandlerFeedsGossip | dot-zypo-common/node/economy.go:571-601 | what the handler sends is what the gossip model puts under way, and the node takes the same step |
| Protocol.HandlerFeedsNetwork | dot-zypo-common/node/economy.go:571-601 | the same for the network of a whole batch |
| Rules.DecisionRule | dot-zypo-common/node/economy.go:327-352 | refused, duplicate and applied, each if and only if, over the figures of the two accounts |
| Rules.PostingRule | dot-zypo-common/node/economy.go:354-374 | balance, rating, stamps and history of a party of an applied transaction |
| Rules.OthersRule | dot-zypo-common/node/economy.go:317-346 | nobody else changes, and without an application at most an empty account with a rating of 5 is opened |
| Rules.PriceRule | dot-zypo-common/node/economy.go:378-386 | the bytes an amount buys, as a quotient with the price and 2^30, the fraction dropped |
| Rules.BuysOnce | dot-zypo-common/node/economy.go:378-386 | no other number of bytes meets that |
| Rules.PrepayRule | dot-zypo-common/node/economy.go:376-387 | an applied prepayment moves the payer's quota by just that, and nothing else moves one |
| Rules.LocalPrepayment | dot-zypo-common/node/economy.go:394-424 | a local prepayment applied at its payee raises the payer's quota there by what it buys at the payee's price |
| Rules.LocalRule | dot-zypo-common/node/economy.go:405-420 | payer, payee, amount, comment, time and ID of a local payment |
| Rules.DebitRule | dot-zypo-common/node/economy.go:604-643 | when a debit is granted and what it and a top-up change |
| Rules.PruneRule | dot-zypo-common/node/economy.go:79-96 | stamps older than 2592000000 ms go and nothing else does |
| Rules.StartRule | dot-zypo-common/node/economy.go:98-147 | every account after a start: rating, stamps, history and balance |
| Rules.AbsorbRule | dot-zypo-common/node/economy.go:190-196 | which stamp a merge gives |
| Rules.RollbackRule | dot-zypo-common/node/economy.go:477-508 | the refund, the counter-debit and the stamp, for each account |
| Rules.PruneStepRule | dot-zypo-common/node/economy.go:91-95 | pruning saves if and only if a stamp went |
| Rules.StartStepRule | dot-zypo-common/node/economy.go:98-147 | a start saves if and only if it opens its own account or fills the fund |
| Rules.FaucetRule | dot-zypo-common/node/economy.go:511-518 | the faucet opens an account with nothing and no rating, and saves nothing |
| Conservation.ProcessConserves | dot-zypo-common/node/economy.go:317-364 | no outcome changes the sum of all balances |
| Conservation.LoadInjects | dot-zypo-common/node/economy.go:126-146 | a start adds the genesis balance and the top-up, and nothing on any other node |
| Conservation.MergeInjects | dot-zypo-common/node/economy.go:182-188 | a sync adds the differences it copies |
| Conservation.StepConserves | dot-zypo-common/node/economy.go:79-202 | every step changes the sum by what it injects, in memory and on disk alike |
| Conservation.RunConserves | dot-zypo-common/node/economy.go:126-364 | over any run the money supply is the opening supply plus what was injected |
| Conservation.PaymentsConserve | dot-zypo-common/node/economy.go:317-364 | without a sync and without a command center's restart it never changes |
| ReplayWindow.StepKeepsStamp | dot-zypo-common/node/economy.go:79-202 | no step takes a stamp that is still in the window from memory or disk |
| ReplayWindow.Remembered | dot-zypo-common/node/economy.go:49-96 | every applied transaction stays stamped on both accounts, in memory and on disk, for 30 days |
| ReplayWindow.ReplaysAreFarApart | dot-zypo-common/node/economy.go:348-364 | two applications with one ID and a common account are over 30 days apart, in any run |
| ReplayWindow.WindowIsExact | dot-zypo-common/node/economy.go:82-88 | after pruning, the same transaction is applied again exactly if more than 30 days have passed |
| Histories.BalanceFollowsLog | dot-zypo-common/node/economy.go:355-364 | a balance is its opening value plus the net of what was applied |
| Histories.HistoryIsLogTail | dot-zypo-common/node/economy.go:359-374 | a history is the full log, or its last hundred entries once it was cut |
| Histories.HistoryExplainsBalance | dot-zypo-common/node/economy.go:366-374 | on a command center the new part of each history explains the change of the balance |
| Replicas.AppliedOnce | dot-zypo-common/node/economy.go:348-352 | within 30 days no transaction is applied twice |
| Replicas.NetIgnoresOrder | dot-zypo-common/node/economy.go:355-356 | the net of a set of payments does not depend on their order |
| Replicas.ReplicasConverge | dot-zypo-common/node/economy.go:317-364 | nodes that applied the same set of transactions agree on every balance |
| Replicas.SeenSource | dot-zypo-common/node/economy.go:354-364 | a stamp comes from the start (with restarts, also from a history or the disk) or from something applied since |
| Replicas.KnowsSource | dot-zypo-common/node/economy.go:105-122 | so does whatever a restart can restore a stamp from |
| Replicas.RatingsHold | dot-zypo-common/node/economy.go:105-110 | no run takes a rating below what memory and, with restarts, disk are sure of |
| Replicas.FirstArrivalApplies | dot-zypo-common/node/economy.go:343-352 | a transaction of a funded batch is applied when it first arrives |
| Replicas.FundedDeliveryConverges | dot-zypo-common/node/economy.go:343-364 | replicas that receive the same funded batch, in any orders and any number of times, agree |
| Funding.AppliesIfAndOnlyIfAffordable | dot-zypo-common/node/economy.go:317-364 | given distinct unused IDs and no negative amount: every run, with or without restarts, applies all that arrives of a batch, and all of it once all has arrived, if and only if every payer can cover what it sends |
| Funding.WorstStart | dot-zypo-common/node/economy.go:511-518 | the steps that leave a payer the least to spend: a restart, and on a command center the faucet |
| Funding.LackingRun | dot-zypo-common/node/economy.go:343-346 | if a payer cannot, a run the node can take in which the whole batch arrives and a payment is never applied |
| Funding.OrderMattersIff | dot-zypo-common/node/economy.go:343-356 | the order of a payment and one its payee makes decides an outcome, and a balance, if and only if the second needs the first |
| Funding.OrderCanMatter | dot-zypo-common/node/economy.go:343-346 | two such payments |
| CreditFloor.ProcessKeepsFloor | dot-zypo-common/node/economy.go:343-356 | a payment that is not negative keeps every account but the oracle's above minus twice its rating |
| CreditFloor.RunKeepsFloor | dot-zypo-common/node/economy.go:183-422 | so does every run, with syncs from ledgers that keep it, in memory and on disk |
| CreditFloor.FloorNeedsNonNegativeAmounts | dot-zypo-common/node/economy.go:343-356 | processing keeps the floor of all ledgers if and only if the amount is not negative, or the payee is the payer or an oracle |
| LocalPayments.LocalIDs | dot-zypo-common/node/economy.go:405-413 | local IDs are equal exactly for equal milliseconds |
| LocalPayments.MillisecondDecides | dot-zypo-common/node/economy.go:405-424 | after any run without a sync, a payment with credit and an otherwise unused ID is applied if and only if its millisecond is not that of an earlier one in the window |
| LocalPayments.AcceptedWithinMeans | dot-zypo-common/node/economy.go:343-346 | what is applied of the pending payments stays within the balance and the credit line |
| LocalPayments.PendingCanOverdraw | dot-zypo-common/node/economy.go:397-422 | any number of payments that passed the balance check can overdraw the account if and only if some of them cost more than the balance but not more than balance and credit line |
| LocalPayments.PairOverdraws | dot-zypo-common/node/economy.go:397-422 | when two of them do |
| LocalPayments.LocalCheckCanBeOutrun | dot-zypo-common/node/economy.go:397-422 | two that do |
| Merging.AbsorbSeen | dot-zypo-common/node/economy.go:191-196 | after a merge an ID is seen exactly if it was, or if the dump stamps it |
| Merging.AbsorbHistory | dot-zypo-common/node/economy.go:191-196 | the merged history is the old one and the new entries in order |
| Merging.MergedAccount | dot-zypo-common/node/economy.go:182-197 | the whole effect on each account, and none on accounts outside the dump |
| Merging.RemergeIsIdle | dot-zypo-common/node/economy.go:190-196 | merging twice is merging once if and only if every entry is seen or stamped |
| Merging.TimedDumpIsIdle | dot-zypo-common/node/economy.go:190-196 | so it is when no time is zero |
| Merging.MergeInPieces | dot-zypo-common/node/economy.go:182-197 | the accounts of a dump can be merged in pieces and in any order |
| Restarts.LoadRepairs | dot-zypo-common/node/economy.go:105-146 | after a start each account has a rating and a stamp for each history entry, and the command center its fund |
| Restarts.LoadIsIdempotent | dot-zypo-common/node/economy.go:105-146 | starting twice is starting once |
| Restarts.HistoryBlocksReplay | dot-zypo-common/node/economy.go:112-117 | what an account's history holds is a duplicate again after a restart, even if its stamp was pruned |
| Undo.RemoveAppended | dot-zypo-common/node/economy.go:487-492 | removing the first entry with the ID takes back the one appended exactly when all from there on are that entry |
| Undo.UnpostPost | dot-zypo-common/node/economy.go:484-504 | exactly when one account comes back, for every account |
| Undo.RollbackRestores | dot-zypo-common/node/economy.go:477-508 | exactly when all accounts do, for every ledger and applied transaction; the quota never does |
| Undo.RollbackAfterReplay | dot-zypo-common/node/economy.go:484-492 | a payment repeated after its stamp was pruned: the rollback takes the earlier entry |
| Quotas.StepBalances | dot-zypo-common/node/economy.go:376-389 | each step moves memory and disk quotas by its entry in the books |
| Quotas.QuotaAccounts | dot-zypo-common/node/economy.go:604-643 | remaining = opening + bought - used + forgiven by restarts, and the disk is ahead by what is unsaved |
| Quotas.BoughtByLog | dot-zypo-common/node/economy.go:348-387 | each applied prepayment credits once, other deliveries never |
| Quotas.QuotasHoldIffFair | dot-zypo-common/node/economy.go:376-387 | a step keeps the quotas of every state from going negative if and only if it is no negative prepayment and no negative top-up |
| Quotas.QuotaNeverNegative | dot-zypo-common/node/economy.go:604-643 | so does every run of such steps, in memory and on disk |
| Quotas.SplitPayment | dot-zypo-common/node/economy.go:378-386 | splitting a payment never gains and loses less than a byte for each cut |
| Gossip.Targets | dot-zypo-common/node/economy.go:577-582 | a node sends to a peer if and only if it is connected to it and the peer is not the payer |
| Gossip.OutDegreeCounts | dot-zypo-common/node/economy.go:577-582 | what is counted are connections: each one but those to the payer, once |
| Gossip.OriginateSends | dot-zypo-common/node/economy.go:426-430 | what the origin sends, peer by peer |
| Gossip.StepMarks | dot-zypo-common/node/economy.go:79-364 | a stamp that outlasts the run stays through everything a node does, and whoever applies the transaction had none and gets one |
| Gossip.StepWork | dot-zypo-common/node/protocol.go:180-197 | every delivery leaves less work, no other step adds any |
| Gossip.GossipTerminates | dot-zypo-common/node/economy.go:422-430 | whatever is lost, pruned, restarted or synced, and even for a duplicate local payment, deliveries are at most the connections, those to the payer excluded, and one direct message |
| Gossip.GossipAppliesOnce | dot-zypo-common/node/economy.go:348-364 | no node applies the transaction twice, whatever is lost or repeated |
| Gossip.StepSpreads | dot-zypo-common/node/protocol.go:185-190 | neighbours of a node that has seen it have seen it or have a message under way |
| Gossip.GossipReachesEveryone | dot-zypo-common/node/economy.go:571-601 | when nothing was lost or refused and nothing is under way, every node connected to the origin applied it exactly once |
| Agreement.AppliesFirst | dot-zypo-common/node/economy.go:343-352 | in every reachable state of the network, a node applies a payment of a funded batch, and so passes it on, exactly when it first arrives |
| Agreement.StepMoves | dot-zypo-common/node/protocol.go:180-197 | what every step of the network does to where a payment has arrived and is on its way to |
| Agreement.StepKeeps | dot-zypo-common/node/protocol.go:180-197 | every step keeps each node where its own steps took it, and each payment on its way to every neighbour of a node it has reached |
| Agreement.EveryNodeHasIt | dot-zypo-common/node/economy.go:571-601 | when no message of a payment is under way, it has reached every node of a connected network |
| Agreement.NetworkAgrees | dot-zypo-common/node/economy.go:309-364 | when no message is under way, every node applied exactly the batch, and two nodes that agreed at the start agree again, on every balance |
| Traffic.RunWork | dot-zypo-common/node/protocol.go:185-190 | every delivery is one of the messages outstanding from the start, or a repeat |
| Traffic.NetworkTraffic | dot-zypo-common/node/economy.go:571-601 | a run delivers at most one message for each payment and one over each connection, and a connected network that has gone quiet delivered exactly that many |
| Traffic.PairTakesTwo | dot-zypo-common/node/economy.go:577-582 | a payment between two connected nodes takes two messages |
| Traffic.NetworkSettles | dot-zypo-common/node/economy.go:571-601 | from every reachable state deliveries alone make the network quiet |
| Traffic.PairQualifies | dot-zypo-common/node/economy.go:343-346 | what these theorems ask for is met by any two connected nodes and any payment both can fund |
| Metering.ActKeepsMetered | dot-zypo-common/node/vpn_p2p_server.go:119-183 | at each point of a relay loop: what is forwarded, billed and unbilled |
| Metering.MeteredBounds | dot-zypo-common/node/vpn_p2p_server.go:128-148 | never more than a batch less a byte unpaid, never more than a buffer paid and not sent |
| Metering.SlackIsReached | dot-zypo-common/node/vpn_p2p_server.go:127-148 | a loop can forward a batch less a byte unpaid |
| Metering.RelayTcp | dot-zypo-common/node/vpn_p2p_server.go:119-150 | from the results of its reads, bills and writes: where the loop ends, what it forwards, bills and leaves unpaid on every exit, and its trace; and the bounds |
| Metering.PaidInFull | dot-zypo-common/node/vpn_p2p_server.go:145-148 | a loop that ended and had every bill granted leaves nothing unpaid |
| Metering.AllGoesThrough | dot-zypo-common/node/vpn_p2p_server.go:123-143 | a loop that nothing fails runs on and forwards all it reads |
| Metering.RelayUdp | dot-zypo-common/node/vpn_p2p_server.go:271-308 | from the results of its reads and bills: where the loop ends, what it hands over, which is just what it billed, and its trace |
| Metering.StepFits | dot-zypo-common/node/vpn_p2p_server.go:37-185 | quota left and bytes billed never exceed the credit, and every loop stays metered |
| Metering.TrafficIsBounded | dot-zypo-common/node/vpn_p2p_server.go:116-185 | all sessions together forward at most the credit and 2·(2^20 - 1) bytes for each TCP session |
| Metering.PlayAccounts | dot-zypo-common/node/economy.go:633-643 | under every scheduling, quota left and bytes billed are exactly what there was and was bought, less other debits |
| Metering.NoQuotaNoSession | dot-zypo-common/node/vpn_p2p_server.go:37-43 | without quota no session opens |
| Overrun.TrafficBoundIsReached | dot-zypo-common/node/vpn_p2p_server.go:116-185 | for every number of sessions and every credit in whole batches there is a play that forwards that much |
| RateLimiting.RateLimiter.CheckStreamRateLimit | dot-zypo-common/node/protocol.go:40-70 | the peer's entry takes its step, the others stay, and the answer is the entry's |
| RateLimiting.CheckRule | dot-zypo-common/node/protocol.go:34-70 | when a stream is accepted, and count, window and ban afterwards, in figures |
| RateLimiting.CheckReachable | dot-zypo-common/node/protocol.go:51-69 | the cycle of window and ban |
| RateLimiting.BanCycle | dot-zypo-common/node/protocol.go:51-69 | a ban outlives its window by 20 s, nothing passes during it, the first stream after it opens a window, and the count stays at most 51 |
| RateLimiting.RejectionBans | dot-zypo-common/node/protocol.go:62-68 | after one stream too many nothing passes for 30 s |
| RateLimiting.PeersAreSeparate | dot-zypo-common/node/protocol.go:44-49 | each peer's streams fare as if it were alone |
| RateLimiting.AcceptedFrom | dot-zypo-common/node/protocol.go:56-63 | what is left of the window and fifty for each window that can still open |
| RateLimiting.SlidingBound | dot-zypo-common/node/protocol.go:34-70 | at most `Most(T)` streams of a peer in any closed interval of length T |
| RateLimiting.MostInTenSeconds | dot-zypo-common/node/protocol.go:34-38 | that is at most 50·ceil(T/10 s) + 49, and 99 in ten seconds |
| RateLimiting.BoundIsReached | dot-zypo-common/node/protocol.go:34-70 | `Most(T)` is reached in every interval that begins later than ten seconds after the zero of the clock |
| StreamTargets.BuildTargets | dot-zypo-client/pkg/client/rpc_client.go:190-227 | every connected peer once: healthy bootstraps, other bootstraps, the rest, each in source order |
| StreamTargets.BeforeRule | dot-zypo-client/pkg/client/rpc_client.go:190-227 | the order: healthy bootstraps, other bootstraps, the rest, and within each the one listed sooner |
| StreamTargets.TargetListIsUnique | dot-zypo-client/pkg/client/rpc_client.go:190-227 | no other list has that property |
| StreamTargets.GetCCStream | dot-zypo-client/pkg/client/rpc_client.go:229-243 | the stream goes to the best peer that takes one, and fails only if none does |
| SignedPayments.MicrosAreNearest | dot-zypo-common/node/economy.go:301 | a printed amount is a nearest number of millionths, the even one of two |
| SignedPayments.AmountTextReads | dot-zypo-common/node/economy.go:301 | and reads as that, with its sign and six decimals |
| SignedPayments.SignedTextReads | dot-zypo-common/node/economy.go:301 | the signed text holds payer, payee, amount and time in that order |
| SignedPayments.AmountTextTellsApart | dot-zypo-common/node/economy.go:301 | amounts print alike exactly if they have one sign and agree to six decimals |
| SignedPayments.SignedTextTellsApart | dot-zypo-common/node/economy.go:301 | signed texts are equal exactly if parties, printed amount and time are |
| SignedPayments.CleanPartiesTellApart | dot-zypo-common/node/economy.go:301 | for parties without the separator, exactly if payer, payee, printed amount and time are |
| SignedPayments.OtherIDIsAnotherPayment | dot-zypo-common/node/economy.go:343-387 | a signed payment under another ID is posted once more if and only if that ID is unseen and there is credit |
| Text.SplitJoin | dot-zypo-common/node/lan_scanner.go:170 | fields without the separator come back from the joined text |
| Text.HexRoundTrip | dot-zypo-common/node/lan_scanner.go:42 | the signature comes back from its hexadecimal text |
| Text.HexEncodeRule | dot-zypo-common/node/lan_scanner.go:42 | two lower-case digits a byte, the high half first |
| Text.HexDecodeRule | dot-zypo-common/node/lan_scanner.go:202 | which texts can be decoded |
| LanDiscovery.AnnouncementRoundTrip | dot-zypo-common/node/lan_scanner.go:29-43 | a receiver checks exactly the signed text and bytes, and accepts exactly if they verify; the unsigned fallback is taken as a client |
| LanDiscovery.PayloadReads | dot-zypo-common/node/lan_scanner.go:29-43 | the packet field by field, signed or not |
| LanDiscovery.PacketRule | dot-zypo-common/node/lan_scanner.go:169-271 | what a receiver makes of any packet |
| LanDiscovery.CommandCentersAreVerified | dot-zypo-common/node/lan_scanner.go:169-271 | whatever the packet, a command center is believed only on a signature over its first five fields |
| LanDiscovery.BootstrapSet.ConnectLANPeer | dot-zypo-common/node/lan_scanner.go:274-332 | both addresses are remembered, the second dial is made if the first fails, and a verified command center that was reached joins the bootstraps once and is asked for the oracle key; nothing else changes them |
| DomainRecords.JoinHosts | dot-zypo-common/node/domain_crypto.go:20-26 | the host text |
| DomainRecords.SignRecord | dot-zypo-common/node/domain_crypto.go:18-38 | the record carries a signature over its own message |
| DomainRecords.VerifyRecord | dot-zypo-common/node/domain_crypto.go:40-50 | the check is of that same message |
| DomainRecords.SignThenVerify | dot-zypo-common/node/domain_crypto.go:18-50 | a signed record verifies |
| DomainRecords.MessageReads | dot-zypo-common/node/domain_crypto.go:27 | the message holds domain, owner and hosts in that order |
| DomainRecords.MessageTellsApart | dot-zypo-common/node/domain_crypto.go:27 | two messages are equal exactly if their fields are, for all records |
| DomainRecords.CleanMessageTellsApart | dot-zypo-common/node/domain_crypto.go:20-27 | with no separator in domain and owner: exactly if domain, owner and readable hosts are |
| DomainRecords.MessageIsInjective | dot-zypo-common/node/domain_crypto.go:18-50 | with proper hosts the message is the record |
| DomainRecords.HostsCanCollide | dot-zypo-common/node/domain_crypto.go:20-27 | without them two records can share a message |

## Left out

- The pruning loop that `NewEconomyManager` starts: pruning is a step that can happen at any time, not a timer.
- Economy.EconomyManager.CreateTransaction: the broadcast and the direct message to the payee are the opening step of `Gossip`.
- Replicas.FundedDeliveryConverges: the condition is exact for applying the whole batch, not for agreeing; replicas can also agree by refusing the same payments.
- LanDiscovery.BootstrapSet.ConnectLANPeer: how long an address is remembered, what the oracle key request brings, and the file of known peers.
- Agreement.NetworkAgrees: no lost message (as by a restart between applying a payment and sending it on), refused signature or sync inside the run, which takes at most 30 days; other batches and lossy runs are covered by `Gossip` and `Replicas` alone.
- LocalPayments.PendingCanOverdraw: no restart, because payments that wait end with the process.
- Metering.TrafficIsBounded: no restart inside the run, because the sessions end with the process.
- `SettleVPNTicket`: it passes a signature over the ticket to a check over the transaction text, so it has no success path to prove.
- Mint and Burn: a mint is a transaction from the mint address and a burn a local payment to the burn address, so both are `Receive` steps here.
- The bridge's single final debit: it is one more `ConsumeTraffic` step in the quota accounts and no part of the forwarding bound.
- A node without an economy manager, which relays without billing.
- A change of the known oracle key during a run, and two spellings of one peer ID as two accounts.
- Ed25519, RSA, peer ID decoding, JSON, and writing two files one after the other: inputs, or one step.
- libp2p, the DHT, relays, address checks before a dial, TUN, proxies, hosting, the crawler and the browser: plumbing around libraries.
- Overflow of 64-bit integers, rounding of floating-point amounts, and log lines that cut short strings.
