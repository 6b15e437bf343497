# A verified model of the system contracts

This project models the behaviour of the UX Network system contracts in Dafny 4.11 and proves what
they keep over whole runs. Each part has the same layout: a value-level specification of the state
and of every action (an aborted transaction is `None`), lemmas about single steps and about whole
runs, and a class that performs the actions as the contract does, on tables updated in place, proved
to succeed exactly when the specification does and to leave exactly its state.

| part | specification and proofs | in-place form |
|---|---|---|
| votes, proxies and vote pay | `Voting`, `VotingIndex`, `VotingTallies`, `VotingChains`, `VotingRuns`, `VotingActions`, `VotingMachine`, `VotingEffects` | `VotingContract` |
| when votes abort | `VotingAborts` | |
| whose votes activate the chain | `VotingActivation`, `VotingTurnout` | |
| when tallies stay exact, and on which rates | `VotingErrors`, `VotingExact`, `VotingExactRuns`, `VotingRates`, `VotingWeeks` | |
| runs that go wrong | `VotingExamples`, `VotingFailures`, `VotingRecount` | |
| producer schedule | `Schedule` | `Schedule` |
| staking, refunds and RAM | `Staking`, `StakingSums`, `StakingVotes`, `StakingMachine`, `StakingRuns`, `StakingWealth`, `StakingLedger`, `StakingExamples` | `StakingContract` |
| REX return pool and share pool | `RexReturns`, `RexPool`, `RexMachine`, `RexPrices` | `RexContract` |
| oracle protocol and inflation | `Oracle`, `OracleCounting`, `OracleMachine`, `OracleAccounts`, `OracleCredits`, `OracleHashes`, `OracleExamples` | `OracleContract` |
| name auctions | `Auctions`, `AuctionsWealth` | `AuctionsContract` |
| multisignature proposals | `Multisig`, `MultisigConsent` | `MultisigContract` |
| token ledger | `Token` | `TokenContract` |

`Sums` holds finite sums over tables, `Common` names and small helpers.

## How the model is set up

- Each action is one atomic step at a chain time that never goes back. A failed `check` undoes the
  whole step; the machines' `Next` functions say so, and `VotingContract.Ledger.Transact` does it on
  the tables. Inline transfers are calls into a token ledger within the same step.
- Votes are real numbers, not doubles. `stake2vote(s, t)` is the stake times a positive rate that is
  an input of each event.
- The vote ledger carries five fields the contract does not have: a rank that falls along every
  proxy edge, the total size of the weight changes that voting.cpp line 380 dropped, the part of it
  that was on its way to a proxy, the number of such drops, and what producers' tallies lost by a
  floor at zero or by a skipped negative weight. The theorems about aborts and about when tallies stay
  exact read none of these but the rank, which only makes the walk along proxy edges end.
- Two exact results about propagation read the row where a change comes to rest off the table
  (`VotingChains.ChainRest`). It aborts if and only if that row lists an unregistered producer and the
  change is more than 1 (`VotingChains.PropagateUnblocked`). It leaves every tally exact if and only if
  the change is more than 1, or zero, or the row backs nobody (`VotingExact`); for a vote, which starts
  two such chains, they may also make up for each other. `VotingExactRuns.RunsStayExact` says so for
  runs.
- A change can be dropped on its way to a proxy only while two rates are within 1 of each other
  (`VotingRates`), which the weekly doubling of stake2vote rules out after 2006 (`VotingWeeks`).
  Producers' tallies then miss at most what was dropped at rows that vote for them themselves.
- Failures are shown as runs from the empty state, by actions that all pass their checks.
- Staking records when each account last undelegated, in microseconds; the contract keeps seconds.
- The REX user actions are switched off in the source (for example rex.cpp line 13), so the model
  takes the helper functions as steps, and its runs are runs of those.
  Staking and voting assume empty REX tables, for which `vote_stake_updater` does nothing.
- The return pool is compared with the plain history of its buckets: a bucket of p units pays
  p mod 4320 when it closes and p / 4320 in each of 4320 ten-minute intervals.
- The oracle model records what was submitted under each hash. SHA-256 is an arbitrary function; what
  must not collide is a hypothesis of the theorem that needs it (`Faithful`, `RevealsDistinct`).
  `OracleHashes.CountsOnceExactly` says which hash functions rule double counting out in every run.
- The lemmas named `...Spelled` say what an action checks and leaves in the tables without the functions
  that compute it; amounts paid are bounded from both sides, lists are described by positions.
- Staking runs are projected to runs of the vote ledger (`StakingLedger.RunProjects`), which carries its
  theorems over.
- Authorisation, signatures, the choice of oracles and producers, inflation amounts and block data
  are inputs. The staking, RAM, auction and pay accounts are taken to move tokens only through the
  contracts (the predicates `Ordinary`).

## Where code and description differ

The model follows the code.

- Refunds are described as available after three days. The request time is kept in whole seconds, so
  one can be paid up to a second earlier (`StakingExamples.RefundBeforeThreeDays`); the exact condition is
  in `StakingRuns.EveryRunPaysRefunds`.
- A comment in `add_to_rex_pool` says that the lendable pool can be empty in a rare case because of
  rounding. It cannot (`RexPool.BuyKeeps`). But a purchase into a pool without shares overwrites what
  the pool still held (`RexPool.BuyAddsPayment`, `RexPool.ResetLosesReturn`).
- A weight change of at most 1 is called negligible. Dropping it can leave a tally wrong
  (`VotingFailures.DropBreaksTally`); exactly when it does is in `VotingExactRuns.RunsStayExact`.
  Votes can become negative only after such a drop, and negative votes of one inactive producer can
  empty the schedule (`VotingFailures.NegativeVotesObstruct`).
- Comments call "producer not found" data corruption. It is reachable by ordinary actions
  (`VotingFailures.AbortAfterDrop`), but only after a ballot cast with a negative weight
  (`VotingAborts.NothingGoesMissing`), and not at all on rates that are more than 1 apart
  (`VotingRates.SpreadRuns`). A missing proxy cannot occur.
- The comment in voting.cpp at line 240 says that each account's stake counts once towards the activation,
  as nobody can unstake before it. Stake whose weight drops have taken away counts again with each vote
  (`VotingRecount.CountsEachTime`). On rates more than 1 apart, so on those of stake2vote after
  2006, the comment is right (`StakingLedger.ChainActivationIsBacked`).
- The producer guard in `undelegatebw` subtracts unsigned numbers and lets larger amounts through
  (`StakingMachine.GuardMeaning`); later checks keep the producers' stake all the same.
- tests/eosio.system_tests.cpp line 47 expects a RAM fee that this code does not take.

## Model

| member | source | states |
|---|---|---|
| VotingMachine.TalliesOfEveryRun | contracts/eosio.system/src/voting.cpp:223-429 | At the end of every run from genesis a proxy's tally is off what is lent to it by at most the changes dropped on their way to a proxy, and these by at most the number of drops; a producer's tally by at most all changes dropped and what was clamped; the total by what was clamped. If no change was ever dropped all are exact, so are the vote-pay rate and share total, shares settled after three days are 0, and no floor at zero was ever reached |
| VotingExactRuns.RunsStayExact | contracts/eosio.system/src/voting.cpp:223-429 | A run from genesis keeps every tally exact at every step if and only if each chain of weight changes that its accepted actions start delivers: the change is carried to the producers, or there is none where it comes to rest, or that row backs nobody, or it makes up for the other chain of the same vote; the condition is read off the tables before each action |
| VotingExact.ActStaysExact | contracts/eosio.system/src/voting.cpp:48-429 | For every action and every state of the invariant with exact tallies, negative weights included: the tallies are exact afterwards if and only if the action delivers, a condition on the table before it |
| VotingExact.VoteStaysExact | contracts/eosio.system/src/voting.cpp:223-351 | update_votes leaves exact tallies exact if and only if its chains deliver, a negative weight stays with the producers it was with, and no tally would fall below zero |
| VotingExact.UpdateVotesErrors | contracts/eosio.system/src/voting.cpp:223-351 | What a vote adds to the error of every proxy's, every producer's and the total tally: what the two chains drop at the rows where they come to rest, the negative weights that are neither given nor taken back, and what the floor at zero swallows |
| VotingErrors.PropagateErrors | contracts/eosio.system/src/voting.cpp:372-429 | A propagation of any length leaves every tally as right or wrong as it was, except that the change dropped where the chain comes to rest is missed by the proxy of that row or by each of its producers |
| VotingExact.AskingAgainCancels | contracts/eosio.system/src/voting.cpp:267-287 | Two drops can make up for each other: asking again for the same proxy with an unchanged weight of at most 1 drops it both ways |
| VotingExact.RegProxyStaysExact | contracts/eosio.system/src/voting.cpp:353-370 | regproxy leaves exact tallies exact if and only if the changed weight is carried on, is no change, or comes to rest at a row that backs nobody |
| VotingExact.StakeStaysExact | contracts/eosio.system/src/delegate_bandwidth.cpp:367-390 | update_voting_power leaves exact tallies exact if and only if the renewed vote, if there is one, delivers |
| VotingMachine.RunKeeps | contracts/eosio.system/src/voting.cpp:223-429 | The ledger invariant (tallies, vote-pay index, proxy order, row shapes) survives any order of votes, proxy changes, stake changes and registrations at any non-decreasing times and rates |
| VotingMachine.ProxiesNeverCycle | contracts/eosio.system/src/voting.cpp:260-287 | In every reachable state no walk along proxy edges returns to where it began, even through accounts that stopped being proxies |
| VotingMachine.NextKeeps | contracts/eosio.system/src/voting.cpp:223-429 | Each single action keeps the invariant and never lowers the recorded loss |
| VotingMachine.UpdateVotingPowerKeeps | contracts/eosio.system/src/delegate_bandwidth.cpp:367-390 | A stake change, with b1's vesting check, followed by the renewed vote keeps the invariant |
| VotingMachine.RegProxyKeeps | contracts/eosio.system/src/voting.cpp:353-370 | Becoming or ceasing to be a proxy keeps the invariant and leaves the row with its new status and weight |
| VotingMachine.RegisterKeeps | contracts/eosio.system/src/voting.cpp:48-88 | Registering a producer, new or again, keeps tallies and index; the branch for a producer without a second row never runs, as both tables keep the same names |
| VotingMachine.DeactivateKeeps | contracts/eosio.system/src/voting.cpp:108-115 | Unregistering keeps tallies and index |
| VotingChains.PropagateUnblocked | contracts/eosio.system/src/voting.cpp:372-429 | Lending x to v aborts if and only if the change is carried to a row that lists an unregistered producer; ChainRest finds that row by reading the table only |
| VotingAborts.UpdateVotesExact | contracts/eosio.system/src/voting.cpp:223-351 | In every state of the right shape update_votes succeeds if and only if its checks on the arguments hold, the old proxy can hear of the withdrawal, and, in the table after that, the new proxy of the new weight: neither change comes to rest at a row that lists an unregistered producer |
| VotingAborts.FirstProxyExact | contracts/eosio.system/src/voting.cpp:279-288 | For a voter without a proxy that condition is read off the table before the vote |
| VotingAborts.RegProxyExact | contracts/eosio.system/src/voting.cpp:353-370 | regproxy succeeds if and only if the status changes, an account with a proxy does not become one, and the changed weight can come to rest |
| VotingAborts.StakeChangeExact | contracts/eosio.system/src/delegate_bandwidth.cpp:367-390 | update_voting_power succeeds if and only if the stake stays non-negative, b1 keeps what is not yet claimable, and the renewed vote can come to rest |
| VotingAborts.VoteKeepsListed | contracts/eosio.system/src/voting.cpp:279-343 | An accepted vote puts an unregistered producer into the table if and only if it names one, which only a voter of negative weight can |
| VotingAborts.ActSucceeds | contracts/eosio.system/src/voting.cpp:223-429 | While every listed producer is registered each action succeeds if and only if the checks on its arguments hold |
| VotingAborts.NothingGoesMissing | contracts/eosio.system/src/voting.cpp:269-394 | In every run, with or without drops, each row's proxy exists; and in every run in which no ballot is cast with a negative weight every listed producer is registered, so "old proxy not found", "proxy not found" and "producer not found" cannot occur |
| VotingRates.PropagateUnlent | contracts/eosio.system/src/voting.cpp:379-389 | When any two rates seen are equal or more than 1 apart, no propagation drops a change on its way to a proxy |
| VotingRates.SpreadRuns | contracts/eosio.system/src/voting.cpp:223-429 | In a run with such rates every proxy's tally is exactly what is lent to it, no weight is negative, and actions abort only on the checks they state |
| VotingWeeks.WeeksApart | contracts/eosio.system/src/voting.cpp:156-160 | From the 364th week of 2000 on, the weights stake2vote gives a unit in two different weeks are more than 1 apart |
| VotingWeeks.ChainRuns | contracts/eosio.system/src/voting.cpp:156-160 | So on a chain whose blocks come after 2006, with the rates of stake2vote, proxies' tallies are exact and the aborts above cannot occur, whatever the run |
| VotingExactRuns.ActErrors | contracts/eosio.system/src/voting.cpp:223-429 | While proxies' tallies are exact and no weight is negative, an action adds to a producer's error just what it misses of the changes sent along proxy edges, unless a floor brings the tally closer to the sum |
| VotingExactRuns.SpreadTallies | contracts/eosio.system/src/voting.cpp:372-429 | In a run whose rates are equal or more than 1 apart each producer's tally is off by at most the changes dropped at rows that vote for that producer themselves |
| VotingWeeks.ChainTallies | contracts/eosio.system/src/voting.cpp:156-160 | The same on a chain whose blocks come after 2006, with the rates of stake2vote |
| VotingFailures.AbortAfterDrop | contracts/eosio.system/src/voting.cpp:289-394 | A run from genesis of ten accepted actions, at rates stake2vote gives in 2000 and a year later, after which a vote that meets every check aborts with "producer not found" on another account's ballot |
| VotingFailures.RatesAreTrue | contracts/eosio.system/src/voting.cpp:156-160 | The two rates of that run are those of stake2vote at its times |
| VotingFailures.DropBreaksTally | contracts/eosio.system/src/voting.cpp:379-428 | For all stakes a, b and rates w, w' with 1 < bw and aw' - aw - bw at most 1 in size, a run from genesis after which a producer has (a + b)w votes while the rows add up to aw': the difference is all that was dropped, so the bound is met |
| VotingFailures.NegativeVotesObstruct | contracts/eosio.system/src/voting.cpp:120-401 | A run from genesis in which a producer's votes fall to -2, and the schedule then comes out empty although an active producer has votes |
| VotingActions.UpdateVotesKeeps | contracts/eosio.system/src/voting.cpp:223-351 | update_votes, as a fresh vote or a renewal, keeps every tally, the index and the proxy order, and leaves the voter's row with the ballot asked for and today's weight, otherwise as it was |
| VotingActions.VoteKeepsOthers | contracts/eosio.system/src/voting.cpp:223-351 | A vote rewrites one ballot only: everybody else keeps stake, ballot and proxy status, whatever chains of proxies its weight travels |
| VotingEffects.UpdateVotesSpelled | contracts/eosio.system/src/voting.cpp:223-351 | update_votes in full, without naming its parts: the checks it makes on the ballot, the proxy and the producers, the two chains that must be able to rest, the row it leaves with today's weight of the stake and of what is lent, and nobody else's ballot or stake moved |
| VotingActivation.VoteActivates | contracts/eosio.system/src/voting.cpp:240-253 | While the chain is not activated a vote adds the voter's stake if its last weight was not positive and nothing otherwise; it activates the chain, at the present time, exactly when 1500000000000 units have voted and it is 1 September 2020; afterwards neither field moves |
| VotingActivation.ActActivates | contracts/eosio.system/src/voting.cpp:223-429 | No other action moves them but a stake change that renews a vote, which counts by the same rule |
| VotingActivation.ActivationOfEveryRun | contracts/eosio.system/src/voting.cpp:236-253 | After any run the recorded stake is that of the first votes cast before the activation; the chain is activated only with at least 1500000000000 units, not before 1 September 2020, and once it is neither field ever changes |
| VotingTurnout.ActivatedByTurnout | contracts/eosio.system/src/voting.cpp:236-253 | What the comment there promises, on spread rates: if nothing is unstaked before the activation no stake counts twice, so the step that activates the chain leaves accounts whose votes have weight with at least that much stake |
| VotingRecount.CountsEachTime | contracts/eosio.system/src/voting.cpp:236-246 | On other rates it is false: a run from genesis by which one unit of stake loses its weight, two changes being dropped, and then counts towards the activation as often as its owner votes, while five units are all there is |
| VotingEffects.RegProxySpelled | contracts/eosio.system/src/voting.cpp:353-370 | regproxy changes one account's status and nobody's stake, ballot or, but for that account, status |
| VotingEffects.StakeChangeSpelled | contracts/eosio.system/src/delegate_bandwidth.cpp:367-390 | A stake change moves one account's stake, renews its vote if it has one, and leaves all other stakes and ballots |
| VotingEffects.VestedSpelled | contracts/eosio.system/src/delegate_bandwidth.cpp:181-187 | The vesting check binds b1 only, and asks it to keep what 1000000000000 units, released evenly over 3640 days from 1 June 2018, have not released yet, to the unit and also before that date |
| VotingEffects.RegisterSpelled | contracts/eosio.system/src/voting.cpp:48-88 | Registering makes a producer active with the votes and vote pay it had, a new one with none, and touches no other |
| VotingEffects.UnregisterSpelled | contracts/eosio.system/src/voting.cpp:108-115 | Unregistering succeeds exactly for a producer, makes it inactive and takes nothing from it |
| VotingEffects.RoundKeepsEarned | contracts/eosio.system/src/voting.cpp:162-211 | A round of vote changes leaves what every producer has earned by now as it is, except that one it settles past three days after its last claim loses it |
| VotingRuns.PropagateKeeps | contracts/eosio.system/src/voting.cpp:372-429 | Passing a weight along a proxy chain of any length keeps every tally, for any two views of the voters table that agree with it on the rows that can be reached |
| VotingChains.LendRefreshes | contracts/eosio.system/src/voting.cpp:372-429 | A propagation leaves every row as it was or with the weight its stake and its loans give it today |
| Voting.PropagateFrame | contracts/eosio.system/src/voting.cpp:372-429 | Propagation changes weights and tallies only, never a row above the one it starts from (so not the voter being updated), and leaves its row with the new weight |
| VotingIndex.ApplyKeepsIndex | contracts/eosio.system/src/voting.cpp:162-211 | One round of vote changes keeps the lazily settled rate and share total equal to the eager sums over live producers, and neither floor in update_total_votepay_share is reached |
| VotingTallies.ApplyKeeps | contracts/eosio.system/src/voting.cpp:299-344 | A round of changes that matches the change of the ballots keeps each producer's tally within the recorded loss, the floor at zero included |
| VotingContract.PropagateCommutes | contracts/eosio.system/src/voting.cpp:381-428 | The weight of a row above v may be written before or after propagating from v, which is why writing it last, as the contract does, is harmless |
| VotingContract.Ledger.UpdateTotalVotepayShare | contracts/eosio.system/src/voting.cpp:162-188 | The in-place update of the global index has the effect the ledger specification gives it |
| VotingContract.Ledger.UpdateProducerVotepayShare | contracts/eosio.system/src/voting.cpp:190-211 | Called with a producer's votes, or 0 once its share is stale, and with the reset flag of its first settlement past three days, it returns the settled share and leaves the settled row, for every such producer; no other row changes |
| VotingContract.Ledger.PropagateWeightChange | contracts/eosio.system/src/voting.cpp:372-429 | The recursive in-place propagation does to the tables exactly what the specification function Propagate does, abort included; it terminates because proxy edges descend in rank |
| VotingContract.Ledger.SpreadWeight | contracts/eosio.system/src/voting.cpp:392-422 | The loop over producers applies the change to each, settles its share and updates the index once |
| VotingContract.Ledger.CheckBallot | contracts/eosio.system/src/voting.cpp:225-234 | Accepts exactly the ballots that name a proxy other than oneself and no producers, or at most 30 producers in strictly rising order |
| VotingContract.Ledger.MoveAllVotes | contracts/eosio.system/src/voting.cpp:299-343 | Whatever the order in which the collected changes are taken, the tallies and sums come out the same; it fails exactly when a producer of the new ballot is not registered (or, in a fresh vote, not active) |
| VotingContract.CollectedIsBallot | contracts/eosio.system/src/voting.cpp:267-297 | The changes collected in two passes are the ballot's: minus the old weight, plus the new weight, per producer |
| VotingContract.Ledger.UpdateVotes | contracts/eosio.system/src/voting.cpp:223-351 | The in-place update_votes succeeds exactly when the specification does and then leaves exactly its state |
| VotingContract.Ledger.Transact | contracts/eosio.system/src/voting.cpp:223-429 | Any action of the ledger in one block (votes, regproxy, stake changes, registrations, each performed in place), undone as a whole when a check fails, is one step of the machine the run theorems are about |
| Schedule.ElectedAreTop | contracts/eosio.system/src/voting.cpp:120-133 | The schedule holds the top eligible producers if and only if no inactive producer with negative votes stands before an eligible one within the first 21 places of the index |
| Schedule.ProposalIsElected | contracts/eosio.system/src/voting.cpp:139-148 | Sorted by name, the proposal names all elected producers and nobody else, in strictly ascending order |
| Schedule.CleanLedgerElectsTop | contracts/eosio.system/src/voting.cpp:120-133 | In a ledger where nothing was dropped the top eligible producers are elected |
| Schedule.Elections.UpdateElectedProducers | contracts/eosio.system/src/voting.cpp:117-154 | What is proposed, sorted by name, and that the recorded schedule size never shrinks and never exceeds 21 |
| StakingRuns.EveryRunIsCovered | contracts/eosio.system/src/delegate_bandwidth.cpp:189-455 | After any run from genesis: stakes and receivers' totals are the sums over delegations, eosio.stake covers all delegations and pending refunds, eosio.ram covers the RAM stake, reserved RAM is the sum of the rows, and every active producer has its self-stake |
| StakingRuns.EveryRunPaysRefunds | contracts/eosio.system/src/delegate_bandwidth.cpp:444-455 | After any run a refund is paid if and only if it is pending and three days, less the unrecorded fraction of a second, have passed since the owner's last undelegation |
| StakingRuns.RunKeeps | contracts/eosio.system/src/delegate_bandwidth.cpp:189-455 | The invariant survives any order of staking, unstaking, refunds, votes, registrations, RAM trades and transfers; neither account's backing can fall |
| StakingRuns.RefundKeeps | contracts/eosio.system/src/delegate_bandwidth.cpp:444-455 | A refund leaves the backing unchanged and is never paid before its exact release time |
| StakingRuns.RefundSucceeds | contracts/eosio.system/src/delegate_bandwidth.cpp:444-455 | While the staking account is backed a refund succeeds exactly when it is pending and its time has come |
| StakingWealth.RefundPaysOwner | contracts/eosio.system/src/delegate_bandwidth.cpp:444-455 | A refund moves just what was pending from eosio.stake to its owner, erases that row, and leaves every other balance and refund |
| StakingWealth.DelegateBwMoves | contracts/eosio.system/src/delegate_bandwidth.cpp:189-403 | delegatebw moves the one delegation, its receiver's totals and its holder's vote stake by the amounts asked; the delegator, and nobody else, pays what its own pending refund does not cover, which it uses up only when staking to itself |
| StakingWealth.UndelegateBwMoves | contracts/eosio.system/src/delegate_bandwidth.cpp:189-441 | undelegatebw moves them back, makes the amounts pending for their owner from now on, and pays nobody |
| StakingWealth.WealthOfEveryRun | contracts/eosio.system/src/delegate_bandwidth.cpp:189-455 | Over any run each account's balance, stake and pending refunds together are what it began with and was openly given: what one account staked never ends up with another |
| StakingLedger.RunProjects | contracts/eosio.system/src/delegate_bandwidth.cpp:189-455 | Every staking run is a run of the vote ledger at the same times and rates, refused actions included, in which nothing is unstaked before the activation: all theorems about those runs hold here |
| StakingLedger.ActivationIsBacked | contracts/eosio.system/src/delegate_bandwidth.cpp:437 | Undelegation opens only by a step after which accounts whose votes have weight hold at least 150,000,000.0000 tokens of stake, no unit counted twice, and eosio.stake holds as much, on spread rates |
| StakingLedger.ChainActivationIsBacked | contracts/eosio.system/src/voting.cpp:156-160 | So on a chain whose blocks come after 2006, with the rates of stake2vote, whatever the run |
| StakingWealth.RegProducerSpelled | contracts/eosio.system/src/voting.cpp:27-88 | regproducer succeeds exactly for an account with 100000000000 units staked to itself, makes it active and touches nothing else |
| StakingExamples.RefundBeforeThreeDays | contracts/eosio.system/src/delegate_bandwidth.cpp:298-455 | For every fraction f of a second and every rate, a run from genesis that stakes, votes and unstakes f past a whole second, after which the refund is paid three days less f later |
| StakingRuns.EveryRunStakes | contracts/eosio.system/src/delegate_bandwidth.cpp:392-441 | At the end of every run in which no ballot is cast with a negative weight delegatebw and undelegatebw fail only on their own checks |
| StakingRuns.RestakeKeepsTime | contracts/eosio.system/src/delegate_bandwidth.cpp:291-316 | Staking, to oneself or others, never changes the release time of what stays pending |
| StakingMachine.ChangeBwBacking | contracts/eosio.system/src/delegate_bandwidth.cpp:189-361 | Stake conservation: balance less delegations less refunds stays, for every source but eosio.stake itself, for which it moves by exactly the amount staked |
| StakingMachine.TotalsNeverFail | contracts/eosio.system/src/delegate_bandwidth.cpp:244-381 | Whenever the delegation row's own check passes, the checks on the receiver's totals and on the voter's stake pass too |
| StakingMachine.ChangeBwAgrees | contracts/eosio.system/src/delegate_bandwidth.cpp:203-273 | Voters' stakes and receivers' net and cpu totals stay the sums of the delegations, through the transfer flag and row erasure |
| StakingMachine.PayKeepsRefunds | contracts/eosio.system/src/delegate_bandwidth.cpp:291-341 | Refund rows are never empty or negative and carry the second of the last undelegation |
| StakingMachine.GuardMeaning | contracts/eosio.system/src/delegate_bandwidth.cpp:418-428 | The producer guard, in unsigned 64-bit arithmetic, passes exactly when enough self-stake remains or the amount exceeds the stake |
| StakingMachine.ChangeBwProducers | contracts/eosio.system/src/delegate_bandwidth.cpp:405-441 | Every active producer keeps 100000000000 units self-staked despite the wrap-around |
| StakingMachine.DelegateBwSucceeds | contracts/eosio.system/src/delegate_bandwidth.cpp:392-403 | While every listed producer is registered, delegatebw succeeds exactly when the amounts are non-negative and not both 0, the transfer flag is not used on oneself, the delegator can pay what a pending refund does not cover, and b1 is left with what it must keep |
| StakingMachine.UndelegateBwSucceeds | contracts/eosio.system/src/delegate_bandwidth.cpp:405-441 | While every listed producer is registered, undelegatebw succeeds exactly when the amounts are non-negative, not both 0 and each covered by the delegation, the chain is activated, an active producer passes the guard, and b1 keeps what is not yet claimable |
| StakingSums.RequeueBalances | contracts/eosio.system/src/delegate_bandwidth.cpp:291-341 | What is asked for is either queued or due, separately for net and cpu, and the rows stay non-negative and non-empty |
| StakingSums.DelegateTotals | contracts/eosio.system/src/delegate_bandwidth.cpp:203-225 | One delegation's change moves its delegator's sum, its receiver's two sums and the grand total, and no other |
| StakingVotes.UpdateVotesKeepsStakes | contracts/eosio.system/src/voting.cpp:223-351 | A vote moves no stake and activates no producer |
| StakingRuns.BuyRamBytesExact | contracts/eosio.system/src/delegate_bandwidth.cpp:28-36 | Although the price is a 32-bit product, buyrambytes(n) succeeds exactly when n is a positive multiple of 1024 whose true price fits in 32 bits and can be paid, and then buys exactly n bytes |
| StakingRuns.BuyRamKeeps | contracts/eosio.system/src/delegate_bandwidth.cpp:54-118 | buyram succeeds exactly on positive payable multiples of 10000, reserves 1024 bytes for each, and keeps the RAM totals and backing |
| StakingWealth.BuyRamPays | contracts/eosio.system/src/delegate_bandwidth.cpp:54-118 | The payer pays the RAM account and the receiver alone gets 1024 bytes for every 10000 units |
| StakingWealth.SellRamPays | contracts/eosio.system/src/delegate_bandwidth.cpp:128-172 | The RAM account pays the seller, who alone gives up bytes |
| StakingRuns.SellUndoesBuy | contracts/eosio.system/src/delegate_bandwidth.cpp:54-172 | What was just bought can always be sold again, and then only the payer's tokens have moved to the receiver |
| StakingRuns.SellRamKeeps | contracts/eosio.system/src/delegate_bandwidth.cpp:128-172 | sellram succeeds exactly on a positive multiple of 1024 within the seller's bytes: the total_ram_stake check never fails |
| StakingContract.Bandwidths.UpdateRefund | contracts/eosio.system/src/delegate_bandwidth.cpp:291-341 | The in-place refund row update, with its rewritten local balances, has the specified effect |
| StakingContract.Bandwidths.Perform | contracts/eosio.system/src/delegate_bandwidth.cpp:28-455 | Each action performed in place over all tables, the two tokens and the vote ledger succeeds exactly when the staking machine's step does and then leaves exactly its state |
| RexReturns.ExtraUpdatesDoNotMatter | contracts/eosio.system/src/rex.cpp:643-740 | For any fees and times, leaving out every call that only updates the pool changes nothing at any later update |
| RexReturns.FeesOfEveryRun | contracts/eosio.system/src/rex.cpp:1089-1118 | Over any run what was handed over plus the proceeds is the sum of all fees, and the proceeds are never negative |
| RexReturns.ProceedsAreRemaining | contracts/eosio.system/src/rex.cpp:660-740 | The proceeds are the open bucket plus, for every bucket still being paid, its rate times the intervals left |
| RexReturns.AllPaidInTheEnd | contracts/eosio.system/src/rex.cpp:692-725 | Once every bucket has run its thirty days exactly the fees have been paid and no bucket is left |
| RexReturns.AdvanceAbsorbs | contracts/eosio.system/src/rex.cpp:643-740 | A later update makes an earlier one unnecessary |
| RexReturns.AdvanceKeeps | contracts/eosio.system/src/rex.cpp:666-690 | Updates keep the history in order, and a closing bucket never overwrites another |
| RexPrices.UpdateSpelled | contracts/eosio.system/src/rex.cpp:643-690 | An update brings the pool to the last multiple of ten minutes and closes the open bucket exactly when its time has come, with its amount and time |
| RexPrices.PaidEvenly | contracts/eosio.system/src/rex.cpp:666-710 | A bucket pays the remainder at once and then one part in 4320 in each of 4320 intervals of ten minutes |
| RexPrices.FeeJoins | contracts/eosio.system/src/rex.cpp:1089-1118 | A fee joins the open bucket; without one it opens a bucket that closes at the next multiple of twelve hours |
| RexContract.ChangeIsDue | contracts/eosio.system/src/rex.cpp:660-725 | The contract's change estimate (rate times elapsed intervals, plus the closing bucket's remainder, less the surplus of expired buckets) is the difference of the closed form at the two times |
| RexContract.Rex.UpdateRexPool | contracts/eosio.system/src/rex.cpp:643-740 | The incremental update keeps rate, buckets, oldest bucket and proceeds equal to what the bucket history says, hands exactly the amount due to the pool, and never needs the repair of negative proceeds |
| RexContract.Rex.ExpireBuckets | contracts/eosio.system/src/rex.cpp:697-710 | The loop erases exactly the buckets past their thirty days and returns their rates and what they were overpaid |
| RexContract.Rex.AddToRexReturnPool | contracts/eosio.system/src/rex.cpp:1089-1118 | A fee joins the open bucket, which is opened at the next twelve-hour boundary if need be |
| RexPool.PriceOfEveryRun | contracts/eosio.system/src/rex.cpp:474-509 | Over any run of purchases, sales, loans, renewals and returns in which the pool keeps shares, the price of a share does not fall |
| RexPool.NextKeeps | contracts/eosio.system/src/rex.cpp:474-509 | Each step keeps total_lendable = total_unlent + total_lent, lent equal to the open loans' stakes, and a pool without shares free of loans |
| RexPool.BuyKeeps | contracts/eosio.system/src/rex.cpp:1031-1082 | A purchase succeeds always: neither the empty-pool check nor the unlent check can fail, and the price does not fall |
| RexPrices.BuyIsWorth | contracts/eosio.system/src/rex.cpp:1031-1082 | A purchase gives payment * rex / lendable shares, rounded down, said by two-sided bounds, and moves just the payment; the first one, or one into a pool without shares, gives 10000 shares a unit and resets the pool |
| RexPrices.SellIsWorth | contracts/eosio.system/src/rex.cpp:792-826 | A sale pays rex * lendable / total rex, rounded down, said by two-sided bounds, exactly when that is no more than what is not lent less a tenth of what is, and moves just that |
| RexPrices.BuyThenSellLoses | contracts/eosio.system/src/rex.cpp:792-1082 | Selling at once what was bought costs less than one unit and the price of one share |
| RexPrices.RentIsWorth | contracts/eosio.system/src/rex.cpp:474-760 | A loan is opened exactly when there are shares and more can be rented than is paid, and rents the most that keeps the product of the reserves from falling |
| RexPrices.CloseIsWorth | contracts/eosio.system/src/rex.cpp:495-509 | Closing a loan returns all it had rented and takes from the rent the most that keeps the product from falling |
| RexPrices.BancorIsMost | contracts/eosio.system/src/exchange_state.cpp:81-94 | The bancor output is the greatest that keeps the product of the reserves from falling |
| RexPool.SellKeeps | contracts/eosio.system/src/rex.cpp:792-826 | A filled order keeps the pool in order and the price from falling; the last share goes only when nothing is lent |
| RexPool.BuyThenSell | contracts/eosio.system/src/rex.cpp:1031-1082 | Selling at once what was bought never returns more than was paid |
| RexPool.BuyAddsPayment | contracts/eosio.system/src/rex.cpp:1058-1066 | A purchase adds exactly its payment to the pool if and only if the pool had shares or held nothing: otherwise what it held is overwritten |
| RexPool.ResetLosesReturn | contracts/eosio.system/src/rex.cpp:1058-1066 | A run from the uncreated pool (buy, sell all, a late return, buy) after which the pool lacks the return |
| RexContract.Rex.Perform | contracts/eosio.system/src/rex.cpp:474-1118 | Updates, fees, loans opened and closed, purchases and sales performed in place, a refused loan undone with its update, leave the tables exactly as the step of the machine below says |
| RexMachine.TokensOfEveryRun | contracts/eosio.system/src/rex.cpp:474-1118 | Over any run of both pools what updates added to the lendable amount, measured on the pool, is just what the return pool's history says it handed over, and payments plus fees equal what is lendable, still waiting, paid to sellers as proceeds, or overwritten by a reset |
| RexPrices.StepsSpelled | contracts/eosio.system/src/rex.cpp:474-509 | What closing and renewing a loan and a return from the other pool leave, for the whole state |
| RexPrices.GatherSpelled | contracts/eosio.system/src/rex.cpp:1089-1118 | A fee joins the return pool whenever there are shares, and with it what was due before reaches the lendable amount; without shares nothing happens |
| RexPrices.LendSpelled | contracts/eosio.system/src/rex.cpp:474-487 | A loan is opened on the pool as it is after the update and its price gathered as a fee; a refused one leaves everything as it was |
| RexPool.BancorKeepsProduct | contracts/eosio.system/src/exchange_state.cpp:81-94 | The output never exhausts the reserve and the product of the reserves never falls |
| RexPool.BancorRoundTrip | contracts/eosio.system/src/exchange_state.cpp:81-107 | Paying the price of an output buys at most that output |
| RexContract.Rex.AddToRexPool | contracts/eosio.system/src/rex.cpp:1031-1082 | The in-place purchase has the specified effect in its three cases |
| RexContract.Rex.FillRexOrder | contracts/eosio.system/src/rex.cpp:792-826 | The in-place sale has the specified effect, and none when the pool cannot spare the proceeds |
| RexContract.Rex.AddLoanToRexPool | contracts/eosio.system/src/rex.cpp:474-487 | The loan's fee is gathered and distributed first, then the tokens move from unlent to lent |
| RexContract.Rex.RemoveLoanFromRexPool | contracts/eosio.system/src/rex.cpp:495-509 | The in-place closing of a loan has the specified effect |
| OracleMachine.NoDoubleCounting | contracts/eosio.system/src/resource.cpp:466-592 | Threshold times the CPU of all datasets paid in a period is at most what the oracles used up and at most what they declared, even when different oracles back different datasets, provided no oracle submitted less CPU under a paid hash than is stored under it |
| OracleHashes.CountsOnceExactly | contracts/eosio.system/src/resource.cpp:361-592 | That bound on what the oracles used up holds in every run from every fresh state if and only if no two acceptable datasets of different CPU share a hash and no totals share one with a dataset of less CPU; for any collision there is a run that breaks it |
| OracleMachine.NoDoubleCountingInAnyRun | contracts/eosio.system/src/resource.cpp:361-592 | The same after any run from a fresh state, and no dataset number is paid twice in a period |
| OracleCredits.CreditsOfEveryRun | contracts/eosio.system/src/resource.cpp:557-592 | After any run from a fresh state threshold times the agreed CPU total times all that the period's payouts credited is at most the utility tokens times the CPU declared, under the same assumption; so if no more was declared in all than threshold times the agreed total, the utility tokens cover all credits |
| OracleCredits.DistributeCredits | contracts/eosio.system/src/resource.cpp:557-592 | A payout raises the accounts' balances by just what is counted as credited |
| OracleExamples.CollisionPaysTwice | contracts/eosio.system/src/resource.cpp:482-592 | Without the assumption the bound fails: a run from a fresh state in which two oracles report different datasets of one text, 46 is paid for against 29 declared, and 23 tokens are credited out of 3 |
| OracleMachine.TextsCollide | contracts/eosio.system/src/resource.cpp:500-507 | The hashed text has no separators: two datasets of different CPU with the same text |
| OracleMachine.IssuedOverEveryRun | contracts/eosio.system/src/resource.cpp:233-316 | After any run from a fresh state inflation was issued once in each period whose inflation is done and at most the cap of 1,500,000 tokens each time, eosio.bpay covers the producers' pay balances, and the supply is the sum of all balances within its maximum |
| OracleMachine.SetTotalsKeeps | contracts/eosio.system/src/resource.cpp:361-462 | Inflation is issued only when not yet issued in the period and at least threshold oracles submitted the same totals, and it is issued as soon as they have |
| OracleMachine.AddUsageKeeps | contracts/eosio.system/src/resource.cpp:466-600 | A dataset number is paid at most once, only after inflation, on at least threshold equal hashes, and as soon as there are that many |
| OracleMachine.AdvanceMeansSettled | contracts/eosio.system/src/resource.cpp:603-724 | For a threshold from 1 to 255 the period advances only when at least threshold oracles revealed one list of hashes, inflation was issued and every dataset on the list was paid |
| OracleMachine.NextKeeps | contracts/eosio.system/src/resource.cpp:361-759 | Every action keeps the protocol invariant; issuing happens only in settotalusg and periods advance only in nextperiod |
| OracleMachine.IssueKeeps | contracts/eosio.system/src/resource.cpp:233-311 | One issue creates at most the cap, never more than the supply allows, and credits producers no more than it pays to their account |
| OracleMachine.PayoutBound | contracts/eosio.system/src/resource.cpp:557-583 | A payout adds its shares, rounded down, to the balances, together at most the dataset's part of the utility tokens |
| OracleAccounts.PayAccountsOf | contracts/eosio.system/src/resource.cpp:557-583 | A payout adds to each account's balance the shares of that account's own entries, however often it is listed |
| OracleAccounts.ShareRounds | contracts/eosio.system/src/resource.cpp:571-575 | A share is the entry's part of the utility tokens in proportion to its CPU, rounded down, said by two-sided bounds |
| OracleAccounts.PayOfEveryRun | contracts/eosio.system/src/resource.cpp:557-741 | Over any run from a fresh state what an account is owed and has collected is just the shares of its own entries in the datasets paid out |
| OracleAccounts.CountIsVoters | contracts/eosio.system/src/resource.cpp:523-531 | The count of a hash is the number of oracles that submitted it as that item |
| OracleAccounts.ModeIsMostVoted | contracts/eosio.system/src/resource.cpp:523-541 | The mode is the hash with the most votes, in eight bits, and the smallest among equals |
| OracleAccounts.IssueSpelled | contracts/eosio.system/src/resource.cpp:233-311 | Inflation is cut to what may still be issued in proportion, rounded down for the producers; the two accounts get just their parts, each producer listed an equal share, and nobody else anything |
| OracleAccounts.IssueSucceeds | contracts/eosio.system/src/resource.cpp:233-311 | issue_inflation succeeds exactly within the cap, below the maximum supply and with a schedule of the recorded size that is not empty |
| OracleAccounts.SetTotalsSpelled | contracts/eosio.system/src/resource.cpp:361-462 | settotalusg: what it checks, the row and dataset it leaves, and that the inflation is issued for the CPU of the totals enough oracles agree on, once |
| OracleAccounts.SetTotalsSucceeds | contracts/eosio.system/src/resource.cpp:361-462 | A submission that passes those checks is refused only when it makes inflation due that cannot be issued |
| OracleAccounts.AddUsageSpelled | contracts/eosio.system/src/resource.cpp:466-600 | addactusg: what it checks, the row and dataset it leaves, and that the dataset enough oracles agree on is paid out, once, to its accounts |
| OracleAccounts.AddUsageSucceeds | contracts/eosio.system/src/resource.cpp:466-600 | A report that passes those checks is refused only by a payout that would divide by an agreed total of zero |
| OracleAccounts.NextPeriodSpelled | contracts/eosio.system/src/resource.cpp:603-724 | nextperiod succeeds exactly when the period is over and enough oracles revealed the list that most, and enough, committed to; it then clears the period's tables and nothing that is owed |
| OracleAccounts.ClaimShareSpelled | contracts/eosio.system/src/resource.cpp:731-742 | claimdistrib pays an account all it is owed from eosio.upay exactly when there is something and it is covered, and then owes it nothing |
| OracleAccounts.ClaimPaySpelled | contracts/eosio.system/src/producer_pay.cpp:73-90 | claimrewards pays a producer all it is owed from eosio.bpay, which always covers it |
| OracleCounting.CreditAtMost | contracts/eosio.system/src/resource.cpp:487-497 | An oracle is never credited with more CPU than its own datasets hold |
| OracleCounting.ModeIsBest | contracts/eosio.system/src/resource.cpp:523-541 | The mode has the greatest eight-bit count, its count is that of its hash, and it is the smallest such hash |
| OracleContract.CountHashes | contracts/eosio.system/src/resource.cpp:523-531 | The counting loop holds for every hash the number of oracles that submitted it, modulo 256 |
| OracleContract.FindMode | contracts/eosio.system/src/resource.cpp:533-541 | The scan that replaces only on a strictly larger count finds the greatest count and the smallest hash that has it |
| OracleContract.ScanFindsMode | contracts/eosio.system/src/resource.cpp:533-541 | What the scan finds is the mode of the specification |
| OracleContract.Oracles.Allocate | contracts/eosio.system/src/resource.cpp:482-507 | The loop over a dataset succeeds exactly when all amounts are positive and together fit in the declared total, and spells the text to be hashed |
| OracleContract.Oracles.Perform | contracts/eosio.system/src/resource.cpp:233-759 | Each action performed in place, loops and inline transfers included, succeeds exactly when the protocol machine's step does and then leaves exactly its state |
| Auctions.AuctionsOfEveryRun | contracts/eosio.system/src/name_bidding.cpp:11-78 | After any run from a state without auctions eosio.names covers all open bids and refunds, a refund succeeds exactly when it is recorded, the daily close never aborts a block, and a closed auction never reopens nor changes winner or price and ends only when its winner makes the name an account |
| Auctions.ActKeeps | contracts/eosio.system/src/name_bidding.cpp:11-78 | Balance less open bids less refunds is the same after every bid, outbid, refund, daily close and claim |
| AuctionsWealth.BidSpelled | contracts/eosio.system/src/name_bidding.cpp:11-64 | bidname succeeds exactly for an auctioned name nobody has, a covered bid, and on an open auction one above the leader's by more than a tenth from somebody else; the new bidder pays and leads from now, the old one is owed just what it had bid, and no other refund or auction moves |
| AuctionsWealth.BidRefundSpelled | contracts/eosio.system/src/name_bidding.cpp:66-77 | bidrefund pays the bidder named all it is owed for the name, once, and nobody else |
| AuctionsWealth.OnBlockSpelled | contracts/eosio.system/src/producer_pay.cpp:46-69 | The daily close takes the open auction with the greatest bid exactly when the slots, the bid's age and the activation allow, sends its bid to eosio.upay and touches no other auction |
| AuctionsWealth.NewAccountSpelled | contracts/eosio.system/src/eosio.system.cpp:396-418 | newaccount succeeds exactly for the system account, a free name, a suffix's owner, or the winner of the name's closed auction |
| AuctionsWealth.BidsOfEveryRun | contracts/eosio.system/src/name_bidding.cpp:11-78 | Over any run all that an account ever bid is in its open bids, in refunds due to it, taken back by it, or spent on auctions closed in its name |
| Auctions.StepProgress | contracts/eosio.system/src/name_bidding.cpp:34-65 | An open bid only grows, by more than a tenth; an auction closes at its own amount; it ends only by its winner's newaccount for the name |
| Auctions.LookupFindsHighest | contracts/eosio.system/include/eosio.system/eosio.system.hpp:103-111 | For bids that are asset amounts the index lookup at 2^63 - 1 on the wrapped key finds exactly the open auction with the greatest bid, never a closed one |
| Auctions.NewAccountKeeps | contracts/eosio.system/src/eosio.system.cpp:396-418 | Claiming a closed auction removes it without touching the backing |
| AuctionsContract.NameBids.LowerBound | contracts/eosio.system/src/producer_pay.cpp:51 | The scan returns the first row of the index at or after the bound, or none if there is none |
| AuctionsContract.NameBids.Perform | contracts/eosio.system/src/name_bidding.cpp:11-78 | Each action performed in place, the daily close by the index lookup, succeeds exactly when the auction machine's step does and then leaves exactly its state |
| Multisig.LevelsOfEveryRun | contracts/eosio.msig/src/eosio.msig.cpp:9-205 | After any run from tables with old-format proposals only, or none, a proposal exists exactly when it has an approvals row, in one format only, and the levels asked for and given are together those proposed |
| Multisig.NextKeeps | contracts/eosio.msig/src/eosio.msig.cpp:9-205 | Each action keeps that, with multiplicities |
| MultisigConsent.ExecSpelled | contracts/eosio.msig/src/eosio.msig.cpp:142-189 | exec succeeds exactly when the proposal exists, has not expired, has an approvals row and the chain accepts one list of levels: those approved later than their actor's last invalidation (old format: of actors that never invalidated), each as often as given, in order |
| MultisigConsent.StandOnce | contracts/eosio.msig/src/eosio.msig.cpp:155-165 | That description by positions leaves one list only |
| MultisigConsent.ExecutedWithConsent | contracts/eosio.msig/src/eosio.msig.cpp:9-205 | Over any run a proposal is executed only if the chain accepts a list of levels each of which approved it in that run, after every invalidation by its actor |
| MultisigConsent.ProposeSpelled | contracts/eosio.msig/src/eosio.msig.cpp:9-57 | propose succeeds exactly when the key is free, the proposal would not have expired and the chain would accept all levels asked for; it then asks each of them, in order, and none has approved |
| MultisigConsent.ApproveSpelled | contracts/eosio.msig/src/eosio.msig.cpp:59-92 | approve succeeds exactly when the level is asked for; the level then has approved now and is asked once less, the other entries keep their order |
| MultisigConsent.UnapproveSpelled | contracts/eosio.msig/src/eosio.msig.cpp:94-116 | unapprove succeeds exactly when the level has approved, and asks it again |
| MultisigConsent.CancelSpelled | contracts/eosio.msig/src/eosio.msig.cpp:118-140 | cancel succeeds exactly for the proposer, or for anybody once the proposal has expired, and removes it whole |
| MultisigConsent.InvalidateSpelled | contracts/eosio.msig/src/eosio.msig.cpp:191-205 | invalidate notes the present time for that account and nothing else |
| Multisig.ExecCountsStanding | contracts/eosio.msig/src/eosio.msig.cpp:155-165 | exec counts exactly the approvals given strictly after their account's last invalidation, each as often as given |
| Multisig.OldCountsStanding | contracts/eosio.msig/src/eosio.msig.cpp:166-176 | In the old format exec counts exactly the approvals of accounts that never invalidated |
| Multisig.InvalidateClears | contracts/eosio.msig/src/eosio.msig.cpp:191-205 | After an account invalidates, none of its earlier approvals counts for any proposal, and everybody else's count as before |
| Multisig.ApproveCounts | contracts/eosio.msig/src/eosio.msig.cpp:59-92 | An approval given after the last invalidation counts |
| Multisig.UnapproveUndoesApprove | contracts/eosio.msig/src/eosio.msig.cpp:59-116 | Taking an approval back restores who is asked and who has approved |
| MultisigContract.FindLevel | contracts/eosio.msig/src/eosio.msig.cpp:73-74 | The search finds the first position of the level, or the end |
| MultisigContract.Proposals.Perform | contracts/eosio.msig/src/eosio.msig.cpp:9-205 | Each action performed in place, the loops that copy requests and gather standing approvals included, is exactly the proposal machine's step, with no change on a failed check |
| Token.SupplyOfEveryRun | contracts/eosio.token/src/eosio.token.cpp:27-157 | After any run from a newly created token the supply is the sum of all balances and within the maximum, and no balance is negative or above the supply |
| Token.TransferMoves | contracts/eosio.token/src/eosio.token.cpp:77-127 | A transfer succeeds exactly when two different accounts and a positive, covered amount are named, and moves that amount and nothing else |
| Token.ActSpelled | contracts/eosio.token/src/eosio.token.cpp:27-157 | issue, retire, transfer, open and close: exactly when each succeeds, and whose balance, and which supply, it moves |
| TokenContract.Accounts.Perform | contracts/eosio.token/src/eosio.token.cpp:27-157 | Issue, retire, transfer, open and close performed in place are exactly the machine's steps, with no change on a failed check |

## Left out

- Voting.RegisterProducer: keys, urls and locations are not modelled; a producers row without a producers2 row (voting.cpp lines 62-70), which an upgrade could leave, does not occur in runs from genesis.
- VotingMachine.TalliesOfEveryRun: weights are real numbers; rounding of doubles is not modelled.
- VotingWeeks.ChainRuns: the power of two is represented by its growth in one week, a positive number whose 52nd power is 2.
- VotingTurnout.ActivatedByTurnout: spread rates are a sufficient condition; VotingRecount.CountsEachTime shows that some condition is needed, and which runs of close rates still count each unit once is not decided.
- Schedule.Elections.UpdateElectedProducers: whether the proposed schedule is accepted is an input; keys are not modelled.
- StakingContract.Bandwidths.Perform: resource limits set through the host and deferred refund transactions are not modelled; amounts are unbounded integers except where the source wraps; b1's claimable amount is an exact quotient where the source uses doubles.
- StakingRuns.SellUndoesBuy: reserved RAM is not compared with max_ram_size, which buyram does not check either.
- RexContract.Rex.FillRexOrder: the seller's REX balance, maturities and vote stake are not modelled, nor are REX funds, savings, the order queue and loan accounts beyond what each loan has staked.
- RexReturns.AdvanceKeeps: chain times are taken between 31 January 1970 and early 2106, where the 32-bit times do not wrap.
- RexPool.BancorKeepsProduct: the quotient is exact; the source computes it in doubles. The same holds for RexPool.BancorRoundTrip and RexContract.Rex.RemoveLoanFromRexPool.
- OracleMachine.NoDoubleCounting: stated for one state under a hypothesis on its paid hashes; the converse holds for the hash function and all runs (OracleHashes.CountsOnceExactly), not for one state.
- OracleMachine.IssueKeeps: the cut to what may still be issued is an exact floor where the source uses doubles, and so are the shares in OracleMachine.PayoutBound.
- OracleContract.Oracles.Perform: the inflation formula of set_total (logarithms, powers, moving averages) is replaced by two arbitrary non-negative amounts; reading a table at its end iterator, which the source does when a hash is absent, is taken as finding nothing, and reading the first entry of an empty dataset as an abort.
- Oracle.NextPeriod: the scores of the sources table are not modelled; initresource is not a step, so the threshold stays fixed.
- OracleCredits.CreditsOfEveryRun: nothing is claimed about eosio.upay covering all shares when more was declared than threshold times the agreed total; the code does not ensure it.
- AuctionsContract.NameBids.Perform: the rules that tell which names are auctioned are an input (free, by auction, or under a suffix); the deferred refund is not modelled.
- Auctions.OnBlock: unpaid block counters and the schedule update in the same action are not part of this step.
- Auctions.NewAccount: the resource row and limits of a new account are steps of the staking machine or left out.
- MultisigContract.Proposals.Perform: packed transactions, proposal hashes and the chain's authorisation check are represented by an expiration and an arbitrary predicate over levels.
- TokenContract.Accounts.Perform: account existence, memos, notifications and RAM payers are not modelled; each token has its own ledger.
- eosio.bios, eosio.wrap, eosio.info, eosio.freeze, limit_auth_changes and the parameter setters would only add easy members.
