# Chase the Ace, modelled in Dafny

Chase the Ace is a raffle tournament on Ethereum. Each round is a **Raffle** contract:

- Players buy tickets and commit to a secret number.
- The owner closes the raffle by revealing the seed they committed to at creation. Closing keeps `pot / raffleCut` in the raffle and sends the rest, the house cut, to the tournament.
- Players reveal their numbers and are refunded `ticketPrice / revealRefund` each.
- Once `revealsNeeded` players have revealed, a winning ticket is derived from all revealed numbers. Its owner claims what is left in the pot, once.

The **ChaseTheAce** contract chains the raffles:

- After each raffle, the round winner and the owner draw a card in a four-step commit-reveal exchange.
- Drawing card 0, the ace, ends the game. The round winner then claims the jackpot, which holds the house cuts of every round.

The front end keeps a table of games and raffles in a Redux store. Its **`app` reducer** appends games, appends raffles to a game, and updates a raffle's ticket count and pot.

The Solidity contracts are not part of this model. The two contracts are reconstructed from the behaviour their test suites (`test/raffle.js`, `test/chaseTheAce.js`) drive and assert.

Files:

- `common.dfy`: addresses, hashes, the uninterpreted hash and mixing functions, outcomes.
- `raffle.dfy`: `class Raffle`. Every method returns `Pass` or `Fail(reason)`, and a failure leaves the contract unchanged. The object invariant `Valid()` includes conservation of value: pot + refunds + house cut + payout == everything paid in.
- `chase_the_ace.dfy`: `class ChaseTheAce`. The invariant states that the ace is the last card ever drawn, and that only then is there a winner.
- `test_globals.dfy`: the shared raffle options (`test/globals.js`) and the two loops every full round runs.
- `raffle_tests.dfy`, `chase_the_ace_tests.dfy`: one method per test. Each allocates its own contracts, drives them as the test does, and states in its `ensures` what the test asserts.
- `app_reducer.dfy`: the reducer. The state is a value. Game records are objects shared between the old and the new state, because the reducer only clones shallowly.

## Model

| member | source | states |
|---|---|---|
| Common.Repeat | test/raffle.js:57-67 | the tickets one purchase of n tickets appends: exactly n entries, each the buyer |
| RaffleContract.RevealAddsOne | test/chaseTheAce.js:136-146 | revealing an unrevealed commit adds exactly that player to the set of revealers, so the reveal count is the number of revealed commits |
| RaffleContract.Raffle.Balance | test/chaseTheAce.js:162-166 | the raffle's balance plus refunds, house cut and payout equals everything players paid in |
| RaffleContract.Raffle.Winner | test/chaseTheAce.js:186 | the winning ticket's owner is a ticket holder |
| RaffleContract.Raffle.constructor | test/raffle.js:16-39 | a new raffle stores its parameters and is open, empty and without winner |
| RaffleContract.Raffle.BuyTickets | test/raffle.js:41-100 | goes through iff the raffle is open, the caller is not the owner and the payment is n times the price; appends n tickets for the caller, adds the payment to the pot and to what was paid in, records the commit; reverts 'Raffle is not open' / 'Caller must not be the owner' / wrong payment, and then changes nothing |
| RaffleContract.Raffle.CloseRaffle | test/chaseTheAce.js:125-134 | owner only, once, with the committed seed (a mismatching seed reverts); keeps pot / raffleCut, returns the rest as the house cut, which is the only ghost total that moves; closes the raffle |
| RaffleContract.Raffle.SubmitReveal | test/chaseTheAce.js:136-152 | goes through iff the raffle is closed, no winner yet, the caller has an unrevealed commit matching the number and the pot covers the refund; refunds ticketPrice / revealRefund, marks the commit revealed, and on the revealsNeeded-th reveal picks a winning ticket below the ticket count; only the refund total moves; a second reveal reverts 'Revealer cannot have already revealed their commit', a number that does not hash to the commit reverts with a hash mismatch, an uncovered refund with insufficient pot |
| RaffleContract.Raffle.RecordReveal | test/chaseTheAce.js:136-140 | the effect of an accepted reveal on pot, commits, count and winner, keeping the invariant |
| RaffleContract.Raffle.ClaimWinnings | test/chaseTheAce.js:154-166 | goes through iff the winner is picked, nothing was claimed and the caller owns the winning ticket; pays the whole pot, which only the payout total records, and leaves a zero balance; reverts 'Cannot claim winnings more than once' / 'Caller is not the winner of the raffle' |
| ChaseTheAceContract.ChaseTheAce.CurrentRaffle | test/chaseTheAce.js:211 | the raffle being played is one of the tournament's raffles |
| ChaseTheAceContract.ChaseTheAce.constructor | test/chaseTheAce.js:13-20 | a new tournament has jackpot 0, nothing claimed, no raffle and no card |
| ChaseTheAceContract.ChaseTheAce.NewRaffle | test/chaseTheAce.js:204-211 | appends a fresh open raffle whose parent is the tournament, only once the current raffle has its winner and its card; 'Current Raffle must have ended' otherwise |
| ChaseTheAceContract.ChaseTheAce.Receive | test/chaseTheAce.js:113-118 | the house cut sent by a raffle is added to the jackpot |
| ChaseTheAceContract.ChaseTheAce.PlayerCommit | test/chaseTheAce.js:186-188 | only the current raffle's winner, after the pick and before the card, opens the card draw with a commit |
| ChaseTheAceContract.ChaseTheAce.OwnerCommit | test/chaseTheAce.js:189 | the owner commits second |
| ChaseTheAceContract.ChaseTheAce.PlayerReveal | test/chaseTheAce.js:191 | the player reveals a number matching their commit |
| ChaseTheAceContract.ChaseTheAce.OwnerReveal | test/chaseTheAce.js:192 | the owner reveals a number matching their commit; a card below 52 is appended to the picks; card 0 makes the player the tournament winner |
| ChaseTheAceContract.ChaseTheAce.ClaimWinnings | test/chaseTheAce.js:238-244 | only the tournament winner, only once, takes the whole jackpot |
| TestGlobals.DistinctSlice | test/chaseTheAce.js:136-138 | a run of distinct test accounts is distinct |
| TestGlobals.BuyOneTicketEach | test/chaseTheAce.js:121-124 | each player in turn buys one ticket: tickets are the players in order, the pot grows by one price each |
| TestGlobals.RevealEach | test/chaseTheAce.js:136-146 | each player in turn reveals: all are marked revealed, the pot falls by one refund each, the winner is picked exactly when the count reaches revealsNeeded |
| RaffleTests.Deploy | test/raffle.js:12-24 | the raffle every test starts from |
| RaffleTests.WasInitializedProperly | test/raffle.js:26-39 | the getters return the constructor's arguments and the raffle is open |
| RaffleTests.OwnerCannotPurchaseATicket | test/raffle.js:41-46 | the owner's purchase reverts 'Caller must not be the owner' |
| RaffleTests.SinglePlayerCanBuyASingleTicket | test/raffle.js:48-55 | pot is one price, ticket 0 is the buyer's |
| RaffleTests.SinglePlayerCanBuyMultipleTickets | test/raffle.js:57-67 | pot is two prices, tickets 0 and 1 are the buyer's |
| RaffleTests.MultiplePlayersCanBuyASingleTicketEach | test/raffle.js:69-79 | pot is two prices, tickets in purchase order |
| RaffleTests.MultiplePlayersCanBuyMultipleTicketsEach | test/raffle.js:81-100 | pot is five prices, tickets [1,1,2,2,3] |
| RaffleTests.OnlyTheOwnerCanCloseTheRaffle | test/raffle.js:102-105 | the owner's close goes through and the raffle is closed; a player's attempt, added here, reverts |
| RaffleTests.UsersCannotBuyAfterTheRaffleIsClosed | test/raffle.js:107-114 | a purchase after closing reverts 'Raffle is not open' |
| RaffleTests.UsersCanSubmitTheirReveal | test/raffle.js:116-136 | after five of six players reveal, all five are marked revealed and the winner is picked |
| ChaseTheAceTests.SetUp | test/chaseTheAce.js:13-32 | a new tournament with its first raffle, created with the shared options |
| ChaseTheAceTests.PlayRound | test/chaseTheAce.js:213-232 | one round: six buy, close, five reveal, the card draw; one card below 52 appended, the jackpot grows by the house cut |
| ChaseTheAceTests.ChaseTheAceWasInitializedProperly | test/chaseTheAce.js:37-43 | jackpot 0, nothing claimed |
| ChaseTheAceTests.ChaseTheAceCanCreateANewRaffle | test/chaseTheAce.js:48-61 | the raffle's price, cut, owner and parent are the arguments; it is open |
| ChaseTheAceTests.OwnerCannotPurchaseATicket | test/chaseTheAce.js:66-71 | the owner's purchase reverts |
| ChaseTheAceTests.SinglePlayerCanPurchaseATicket | test/chaseTheAce.js:77-84 | pot is one price, ticket 0 is the buyer's |
| ChaseTheAceTests.CanCloseTheRaffle | test/chaseTheAce.js:89-99 | pot and ticket before closing; closed afterwards, keeping pot / raffleCut |
| ChaseTheAceTests.UsersCannotBuyAfterTheRaffleIsClosed | test/chaseTheAce.js:104-111 | a purchase after closing reverts 'Raffle is not open' |
| ChaseTheAceTests.CanRunAFullRaffle | test/chaseTheAce.js:120-167 | pot 3e9 after closing, 5e8 after five refunds, all revealed, winner picked, winning ticket below 6, claimed, raffle balance 0 |
| ChaseTheAceTests.CanPickACardFromTheDeck | test/chaseTheAce.js:174-193 | the four card-draw steps go through and one card below 52 is drawn |
| ChaseTheAceTests.CanPickCardsUntilThereIsAWinner | test/chaseTheAce.js:200-247 | at most 52 rounds; every card before the last is not the ace; the jackpot is claimed exactly when the last card is the ace, and it holds one house cut per round |
| ChaseTheAceTests.CannotStartARaffleBeforeTheCurrentOneIsFinished | test/chaseTheAce.js:252-260 | newRaffle reverts 'Current Raffle must have ended' and no raffle is added |
| ChaseTheAceTests.PlayerCannotRevealMoreThanOnce | test/chaseTheAce.js:266-280 | the first reveal goes through, the second reverts 'Revealer cannot have already revealed their commit' |
| ChaseTheAceTests.WinnerCannotClaimTheirWinningsTwice | test/chaseTheAce.js:287-310 | the first claim goes through, the second reverts 'Cannot claim winnings more than once' and pays nothing |
| ChaseTheAceTests.OnlyTheWinnerCanClaimTheirWinnings | test/chaseTheAce.js:316-337 | a claim from the account next to the winner reverts 'Caller is not the winner of the raffle' |
| AppReducer.Game.constructor | src/store/actions/AppActions.js:124-133 | a new game record: its index as key, no winner, no raffles |
| AppReducer.Target | src/store/reducers/AppReducer.js:22-36 | exactly the five setter actions name a field |
| AppReducer.Set | src/store/reducers/AppReducer.js:22-36 | SET_ACCOUNTS, SET_CONTRACT, SET_WEB_3, SET_SELF, SET_BALANCE store the action's value in their field and leave every other field equal |
| AppReducer.WithGame | src/store/reducers/AppReducer.js:37-41 | ADD_GAME puts the game last; every earlier game keeps its position; nothing else changes |
| AppReducer.SettersCommute | src/store/reducers/AppReducer.js:22-36 | setters on different fields commute; on the same field the later value wins |
| AppReducer.SetAndAddGameCommute | src/store/reducers/AppReducer.js:22-41 | a setter and ADD_GAME do not interfere |
| AppReducer.WithGames | src/store/reducers/AppReducer.js:37-41 | a run of ADD_GAMEs appends the games in order |
| AppReducer.AddedGameKeepsItsPlace | src/store/reducers/AppReducer.js:37-41 | the n-th game added sits at position n after the existing games |
| AppReducer.UpdatedRow | src/store/reducers/AppReducer.js:57-59 | the updated row has ticketsSold + tickets sold and the new pot; every other field is the old row's |
| AppReducer.UpdatesAccumulate | src/store/reducers/AppReducer.js:53-67 | two updates of one row add their ticket counts and keep the later pot |
| AppReducer.Written | src/store/reducers/AppReducer.js:42-67 | an action writes into at most one game record, one of the state's |
| AppReducer.AddRaffleRow | src/store/reducers/AppReducer.js:42-52 | ADD_RAFFLE appends the row to game index's raffles and to no other game's; the returned state equals the old one, which therefore sees the new row; a missing game throws and writes nothing |
| AppReducer.UpdateTickets | src/store/reducers/AppReducer.js:53-67 | UPDATE_NUMBER_OF_TICKETS replaces only row raffleIndex of game gameIndex by its updated copy; other rows and games unchanged; the old state sees the change; a missing game or row throws and writes nothing |
| AppReducer.App | src/store/reducers/AppReducer.js:15-71 | the reducer dispatches every case as above; an unknown action returns a state equal to the input |

## Left out

- The Solidity sources of Raffle and ChaseTheAce are not part of this model. The contracts are reconstructed from their tests. Where the tests do not pin the order of the checks, the model fixes one, and each method's contract names the revert reason for every failing case:
  - `Raffle.BuyTickets`: raffle open, then caller not the owner, then the payment.
  - `Raffle.CloseRaffle`: caller is the owner, then raffle open, then the seed's hash, then a non-zero `raffleCut`.
  - `Raffle.SubmitReveal`: raffle closed, then no winner yet, then a commit exists, then not yet revealed, then the hash, then a non-zero `revealRefund`, then the pot covers the refund, then a ticket exists for the pick.
  - `Raffle.ClaimWinnings`: winner picked, then not yet claimed, then caller owns the winning ticket.
  - `ChaseTheAce.NewRaffle`: current raffle ended, then no tournament winner yet.
  - `ChaseTheAce.PlayerCommit`: a raffle exists, then its card is not drawn, then its winner is picked, then the draw is idle, then caller is the raffle winner.
  - `ChaseTheAce.OwnerCommit` and `ChaseTheAce.OwnerReveal`: caller is the owner, then the draw's turn, then (for the reveal) the hash.
  - `ChaseTheAce.PlayerReveal`: the draw's turn, then caller is the round winner, then the hash.
  - `ChaseTheAce.ClaimWinnings`: a winner exists, then caller is the winner, then not yet claimed.
- Keccak-256 (`soliditySha3`) and the on-chain derivation of the winning ticket and the card are uninterpreted functions (`sha3`, `mix`). The model states only that the ticket is `mix(revealed numbers) % ticket count` and the card `mix([player, owner]) % 52`.
- The deck is a fixed 52 cards (`NUMBER_OF_CARDS` in src/store/actions/AppActions.js). Drawn cards are not removed and the deck is never exhausted.
- Ether transfers are integer updates. Gas, reentrancy, `msg.value` overflow and block data are not modelled.
- ChaseTheAceContract.ChaseTheAce.Receive: the house cut reaches the jackpot in a separate step after `CloseRaffle`, not inside the same transaction.
- ChaseTheAceContract.ChaseTheAce.NewRaffle: the call is not restricted to the owner and `raffleOwner` is taken as given, because no test calls it from another account.
- The division by a zero `raffleCut` or `revealRefund`, the pick with no tickets, and a refund larger than the pot are modelled as reverts (an EVM arithmetic panic or a failed transfer).
- A player who buys again while the raffle is open has their commit overwritten.
- RaffleTests.Deploy: the raffle.js suite passes six constructor arguments with a raffle cut of 20. The contract the tournament creates takes a seventh, the refund divisor, so this suite is deployed with the shared raffle options of test/globals.js instead (raffleCut 2, revealRefund 2).
- test/globals.js `runRaffle`, `printTickets`, `printAccounts` and test/factory.js (the game registry) are not part of this model.
- AppReducer: the raffle table's numbers are strings passed through `parseInt`, and are natural numbers here. `initialState` is not part of this model. The console logging is left out.
- The UI (src/App.js, GameTable.jsx, Admin.jsx), the action creators and the event handler that feed the reducer are asynchronous I/O and are not part of this model.
