/**
 * The Raffle test suite, one method per test: each deploys its own raffle, drives it
 * as the test does and states what the test asserts. accounts[0] is the owner and,
 * in this suite, also the parent (tournament) address.
 */
module RaffleTests {
  import opened Common
  import opened RaffleContract
  import opened TestGlobals

  /** The deployment every test starts from. */
  method Deploy(accounts: seq<Address>, sha3: Hasher, mix: Mixer) returns (raffle: Raffle)
    requires TestAccounts(accounts)
    ensures fresh(raffle) && FreshRaffle(raffle, accounts[0], accounts[0], sha3, mix)
  {
    raffle := new Raffle(accounts[0], accounts[0], TicketPrice, sha3(MockReveal), RevealsNeeded,
                         RaffleCut, RevealRefund, sha3, mix);
  }

  method WasInitializedProperly(accounts: seq<Address>, sha3: Hasher, mix: Mixer)
    returns (price: nat, cut: nat, owner: Address, tournament: Address, open: bool)
    requires TestAccounts(accounts)
    ensures price == TicketPrice && cut == RaffleCut
    ensures owner == accounts[0] && tournament == accounts[0]
    ensures open
  {
    var raffle := Deploy(accounts, sha3, mix);
    price, cut, owner, tournament, open :=
      raffle.ticketPrice, raffle.raffleCut, raffle.owner, raffle.chaseTheAceAddress, raffle.raffleOpen;
  }

  method OwnerCannotPurchaseATicket(accounts: seq<Address>, sha3: Hasher, mix: Mixer)
    returns (r: Outcome<RaffleError>, pot: nat)
    requires TestAccounts(accounts)
    ensures r == Fail(CallerIsOwner) && pot == 0
  {
    var raffle := Deploy(accounts, sha3, mix);
    r := raffle.BuyTickets(accounts[0], TicketPrice, sha3(MockReveal), 1);
    pot := raffle.pot;
  }

  method SinglePlayerCanBuyASingleTicket(accounts: seq<Address>, sha3: Hasher, mix: Mixer)
    returns (pot: nat, ticketOne: Address)
    requires TestAccounts(accounts)
    ensures pot == TicketPrice && ticketOne == accounts[1]
  {
    var raffle := Deploy(accounts, sha3, mix);
    var r := raffle.BuyTickets(accounts[1], TicketPrice, sha3(MockReveal), 1);
    pot, ticketOne := raffle.pot, raffle.tickets[0];
  }

  method SinglePlayerCanBuyMultipleTickets(accounts: seq<Address>, sha3: Hasher, mix: Mixer)
    returns (pot: nat, ticketOne: Address, ticketTwo: Address)
    requires TestAccounts(accounts)
    ensures pot == 2 * TicketPrice
    ensures ticketOne == accounts[1] && ticketTwo == accounts[1]
  {
    var raffle := Deploy(accounts, sha3, mix);
    var r := raffle.BuyTickets(accounts[1], 2 * TicketPrice, sha3(MockReveal), 2);
    pot, ticketOne, ticketTwo := raffle.pot, raffle.tickets[0], raffle.tickets[1];
  }

  method MultiplePlayersCanBuyASingleTicketEach(accounts: seq<Address>, sha3: Hasher, mix: Mixer)
    returns (pot: nat, ticketOne: Address, ticketTwo: Address)
    requires TestAccounts(accounts)
    ensures pot == 2 * TicketPrice
    ensures ticketOne == accounts[1] && ticketTwo == accounts[2]
  {
    var raffle := Deploy(accounts, sha3, mix);
    var r1 := raffle.BuyTickets(accounts[1], TicketPrice, sha3(MockReveal), 1);
    var r2 := raffle.BuyTickets(accounts[2], TicketPrice, sha3(MockReveal), 1);
    pot, ticketOne, ticketTwo := raffle.pot, raffle.tickets[0], raffle.tickets[1];
  }

  method MultiplePlayersCanBuyMultipleTicketsEach(accounts: seq<Address>, sha3: Hasher, mix: Mixer)
    returns (pot: nat, tickets: seq<Address>)
    requires TestAccounts(accounts)
    ensures pot == 5 * TicketPrice
    ensures tickets == [accounts[1], accounts[1], accounts[2], accounts[2], accounts[3]]
  {
    var raffle := Deploy(accounts, sha3, mix);
    var r1 := raffle.BuyTickets(accounts[1], 2 * TicketPrice, sha3(MockReveal), 2);
    var r2 := raffle.BuyTickets(accounts[2], 2 * TicketPrice, sha3(MockReveal), 2);
    var r3 := raffle.BuyTickets(accounts[3], TicketPrice, sha3(MockReveal), 1);
    pot, tickets := raffle.pot, raffle.tickets;
  }

  /** Closing is the owner's: a player's attempt reverts, the owner's goes through. */
  method OnlyTheOwnerCanCloseTheRaffle(accounts: seq<Address>, sha3: Hasher, mix: Mixer)
    returns (byPlayer: Outcome<RaffleError>, byOwner: Outcome<RaffleError>, open: bool)
    requires TestAccounts(accounts)
    ensures byPlayer == Fail(CallerNotOwner) && byOwner == Pass && !open
  {
    var raffle := Deploy(accounts, sha3, mix);
    var r := raffle.BuyTickets(accounts[1], TicketPrice, sha3(MockReveal), 1);
    var cut;
    byPlayer, cut := raffle.CloseRaffle(accounts[1], MockReveal);
    byOwner, cut := raffle.CloseRaffle(accounts[0], MockReveal);
    open := raffle.raffleOpen;
  }

  method UsersCannotBuyAfterTheRaffleIsClosed(accounts: seq<Address>, sha3: Hasher, mix: Mixer)
    returns (r: Outcome<RaffleError>, tickets: seq<Address>)
    requires TestAccounts(accounts)
    ensures r == Fail(RaffleNotOpen) && tickets == [accounts[1]]
  {
    var raffle := Deploy(accounts, sha3, mix);
    r := raffle.BuyTickets(accounts[1], TicketPrice, sha3(MockReveal), 1);
    var closed, cut := raffle.CloseRaffle(accounts[0], MockReveal);
    r := raffle.BuyTickets(accounts[1], TicketPrice, sha3(MockReveal), 1);
    tickets := raffle.tickets;
  }

  /** Six players buy, the owner closes, five reveal: all five are marked and the winner is picked. */
  method UsersCanSubmitTheirReveal(accounts: seq<Address>, sha3: Hasher, mix: Mixer)
    returns (allRevealed: bool, winnerPicked: bool)
    requires TestAccounts(accounts)
    ensures allRevealed && winnerPicked
  {
    var raffle := Deploy(accounts, sha3, mix);
    BuyOneTicketEach(raffle, accounts[1..7], sha3(MockReveal));
    var closed, cut := raffle.CloseRaffle(accounts[0], MockReveal);
    DistinctSlice(accounts, 1, 6);
    RevealEach(raffle, accounts[1..6], MockReveal);
    allRevealed := true;
    for i := 1 to 6
      invariant allRevealed
    {
      assert accounts[i] in accounts[1..6];
      allRevealed := allRevealed && raffle.commits[accounts[i]].revealed;
    }
    winnerPicked := raffle.winnerPicked;
  }
}
