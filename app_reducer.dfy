/**
 * The `app` reducer of the front end: the store slice that holds the accounts, the
 * factory contract, the web3 handle, the user's own address and balance, and the
 * table of games with the raffles of each game.
 *
 * The top-level state is a value: every case returns a shallow copy. The game
 * records inside `games` are objects shared between the old and the new state, so
 * ADD_RAFFLE and UPDATE_NUMBER_OF_TICKETS, which write into a game record, change
 * what the previous state sees as well. A game is therefore a class here, and its
 * list of raffle rows a field the reducer reassigns.
 */
module AppReducer {
  import opened Common

  /** A handle to a web3 object or contract instance; opaque to the reducer. */
  type Handle = nat

  /** One row of a game's raffle table, as read from a Raffle contract. */
  datatype RaffleRow = RaffleRow(
    contract: Handle,
    address: Address,
    ticketPrice: nat,
    pot: nat,
    ticketsSold: nat,
    parentGame: Address,
    raffleCut: nat,
    raffleOpen: bool,
    winningTicket: nat,
    winnerPicked: bool,
    winner: Option<Address>)   // None stands for the '--' shown while the raffle is open

  /** A game record of the table. Only its raffle list is ever written after creation. */
  class Game {
    const key: nat
    const gameProgress: string
    const gameIndex: nat
    const index: nat
    const address: Address
    const winner: bool
    const game: Handle
    var raffles: seq<RaffleRow>

    /** The record `addGame` builds for the `index`-th game: no card drawn, no raffle yet. */
    constructor (index: nat, address: Address, game: Handle, gameProgress: string)
      ensures this.key == index && this.index == index && this.gameIndex == 0
      ensures this.address == address && this.game == game && this.gameProgress == gameProgress
      ensures !this.winner && this.raffles == []
    {
      this.key := index;
      this.index := index;
      this.gameIndex := 0;
      this.address := address;
      this.game := game;
      this.gameProgress := gameProgress;
      this.winner := false;
      this.raffles := [];
    }
  }

  datatype AppState = AppState(
    accounts: seq<Address>,
    contract: Handle,
    web3: Handle,
    self: Address,
    balance: nat,
    games: seq<Game>)

  /** The actions the reducer handles; `Other` is any other action type. */
  datatype Action =
    | SetAccounts(accounts: seq<Address>)
    | SetContract(contract: Handle)
    | SetWeb3(web3: Handle)
    | SetSelf(self: Address)
    | SetBalance(balance: nat)
    | AddGame(game: Game)
    | AddRaffle(index: int, raffle: RaffleRow)
    | UpdateNumberOfTickets(gameIndex: int, raffleIndex: int, tickets: nat, pot: nat)
    | Other

  /** What a reducer call produces: the next state, or a TypeError thrown on a missing entry. */
  datatype Reduced = Next(state: AppState) | Throws

  datatype Field = Accounts | Contract | Web3 | Self | Balance | Games

  /** `a` and `b` hold the same value in every field except possibly `f`. */
  predicate AgreeExcept(a: AppState, b: AppState, f: Field)
  {
    && (f != Accounts ==> a.accounts == b.accounts)
    && (f != Contract ==> a.contract == b.contract)
    && (f != Web3 ==> a.web3 == b.web3)
    && (f != Self ==> a.self == b.self)
    && (f != Balance ==> a.balance == b.balance)
    && (f != Games ==> a.games == b.games)
  }

  /** The one field each setter action writes, if it is a setter. */
  function Target(action: Action): (f: Option<Field>)
    ensures f.Some? <==> action.SetAccounts? || action.SetContract? || action.SetWeb3?
                         || action.SetSelf? || action.SetBalance?
  {
    match action
    case SetAccounts(_) => Some(Accounts)
    case SetContract(_) => Some(Contract)
    case SetWeb3(_) => Some(Web3)
    case SetSelf(_) => Some(Self)
    case SetBalance(_) => Some(Balance)
    case _ => None
  }

  /**
   * SET_ACCOUNTS, SET_CONTRACT, SET_WEB_3, SET_SELF and SET_BALANCE: the copy carries
   * the action's value in the action's field and agrees with `state` everywhere else.
   */
  function Set(state: AppState, action: Action): (r: AppState)
    requires Target(action).Some?
    ensures AgreeExcept(state, r, Target(action).value)
    ensures action.SetAccounts? ==> r.accounts == action.accounts
    ensures action.SetContract? ==> r.contract == action.contract
    ensures action.SetWeb3? ==> r.web3 == action.web3
    ensures action.SetSelf? ==> r.self == action.self
    ensures action.SetBalance? ==> r.balance == action.balance
  {
    match action
    case SetAccounts(accounts) => state.(accounts := accounts)
    case SetContract(contract) => state.(contract := contract)
    case SetWeb3(web3) => state.(web3 := web3)
    case SetSelf(self) => state.(self := self)
    case SetBalance(balance) => state.(balance := balance)
  }

  /** ADD_GAME: the game goes at the end of the list; every earlier entry keeps its place. */
  function WithGame(state: AppState, game: Game): (r: AppState)
    ensures AgreeExcept(state, r, Games)
    ensures |r.games| == |state.games| + 1 && r.games[|state.games|] == game
    ensures forall i :: 0 <= i < |state.games| ==> r.games[i] == state.games[i]
  {
    state.(games := state.games + [game])
  }

  /** Two setters on different fields commute; two on the same field leave the later value. */
  lemma SettersCommute(state: AppState, a: Action, b: Action)
    requires Target(a).Some? && Target(b).Some?
    ensures Target(a) != Target(b) ==> Set(Set(state, a), b) == Set(Set(state, b), a)
    ensures Target(a) == Target(b) ==> Set(Set(state, a), b) == Set(state, b)
  {
  }

  /** A setter never disturbs the games table, and adding a game never disturbs a setter's field. */
  lemma SetAndAddGameCommute(state: AppState, a: Action, game: Game)
    requires Target(a).Some?
    ensures Set(WithGame(state, game), a) == WithGame(Set(state, a), game)
  {
  }

  /** The games added one after another, in order, on top of `state`. */
  function WithGames(state: AppState, games: seq<Game>): (r: AppState)
    ensures AgreeExcept(state, r, Games)
    ensures r.games == state.games + games
    decreases |games|
  {
    if games == [] then state
    else
      var r := WithGame(WithGames(state, games[..|games| - 1]), games[|games| - 1]);
      assert games[..|games| - 1] + [games[|games| - 1]] == games;
      r
  }

  /** Adding games never reorders nor drops one: the n-th game added sits at position |games| + n. */
  lemma AddedGameKeepsItsPlace(state: AppState, games: seq<Game>, n: nat)
    requires n < |games|
    ensures WithGames(state, games).games[|state.games| + n] == games[n]
  {
    var r := WithGames(state, games);
    assert r.games == state.games + games;
  }

  /** The row UPDATE_NUMBER_OF_TICKETS writes: `tickets` more sold, the pot replaced. */
  function UpdatedRow(row: RaffleRow, tickets: nat, pot: nat): (r: RaffleRow)
    ensures r.ticketsSold == row.ticketsSold + tickets && r.pot == pot
    ensures r.(ticketsSold := row.ticketsSold, pot := row.pot) == row
  {
    row.(ticketsSold := row.ticketsSold + tickets, pot := pot)
  }

  /** Two updates of one row add up their tickets and keep the later pot. */
  lemma UpdatesAccumulate(row: RaffleRow, t1: nat, p1: nat, t2: nat, p2: nat)
    ensures UpdatedRow(UpdatedRow(row, t1, p1), t2, p2) == UpdatedRow(row, t1 + t2, p2)
  {
  }

  /** The game record an action writes into, if any (the one whose entry it names). */
  function Written(state: AppState, action: Action): (s: set<Game>)
    ensures |s| <= 1
    ensures forall g :: g in s ==> g in state.games
  {
    match action
    case AddRaffle(index, _) =>
      if 0 <= index < |state.games| then {state.games[index]} else {}
    case UpdateNumberOfTickets(gameIndex, _, _, _) =>
      if 0 <= gameIndex < |state.games| then {state.games[gameIndex]} else {}
    case _ => {}
  }

  /**
   * ADD_RAFFLE: the row goes at the end of the raffle list of game `index`. The games
   * list is copied, so the new state equals the old one field by field, and the write
   * lands in the shared game record: both states see the longer list. A missing entry
   * throws before anything is written.
   */
  method AddRaffleRow(state: AppState, index: int, raffle: RaffleRow) returns (r: Reduced)
    modifies Written(state, AddRaffle(index, raffle))
    ensures !(0 <= index < |state.games|) <==> r == Throws
    ensures r.Next? ==> r.state == state
    ensures r.Next? ==> state.games[index].raffles == old(state.games[index].raffles) + [raffle]
    ensures forall g :: g in state.games && (r == Throws || g != state.games[index]) ==>
              g.raffles == old(g.raffles)
  {
    if !(0 <= index < |state.games|) {
      return Throws;
    }
    var newGames := state.games;
    var game := newGames[index];
    var newRaffles := game.raffles + [raffle];
    game.raffles := newRaffles;
    r := Next(state.(games := newGames));
  }

  /**
   * UPDATE_NUMBER_OF_TICKETS: row `raffleIndex` of game `gameIndex` is replaced by a
   * copy with `tickets` more sold and the action's pot; the other rows, and the other
   * games, are unchanged. As for ADD_RAFFLE the write lands in the shared game record.
   * A missing game or row throws before anything is written.
   */
  method UpdateTickets(state: AppState, gameIndex: int, raffleIndex: int, tickets: nat, pot: nat)
    returns (r: Reduced)
    modifies Written(state, UpdateNumberOfTickets(gameIndex, raffleIndex, tickets, pot))
    ensures r == Throws <==>
              !(0 <= gameIndex < |state.games| && 0 <= raffleIndex < |old(state.games[gameIndex].raffles)|)
    ensures r.Next? ==> r.state == state
    ensures r.Next? ==>
              var raffles := old(state.games[gameIndex].raffles);
              state.games[gameIndex].raffles
                == raffles[raffleIndex := UpdatedRow(raffles[raffleIndex], tickets, pot)]
    ensures forall g :: g in state.games && (r == Throws || g != state.games[gameIndex]) ==>
              g.raffles == old(g.raffles)
  {
    if !(0 <= gameIndex < |state.games|) {
      return Throws;
    }
    var game := state.games[gameIndex];
    if !(0 <= raffleIndex < |game.raffles|) {
      return Throws;
    }
    var newRaffle := UpdatedRow(game.raffles[raffleIndex], tickets, pot);
    var newGame := state.games;
    newGame[gameIndex].raffles := newGame[gameIndex].raffles[raffleIndex := newRaffle];
    r := Next(state.(games := newGame));
  }

  /**
   * The reducer. Setters and ADD_GAME build a new state value; ADD_RAFFLE and
   * UPDATE_NUMBER_OF_TICKETS write into one shared game record; any other action
   * returns a copy equal to the input.
   */
  method App(state: AppState, action: Action) returns (r: Reduced)
    modifies Written(state, action)
    ensures Target(action).Some? ==> r == Next(Set(state, action))
    ensures action.AddGame? ==> r == Next(WithGame(state, action.game))
    ensures action.Other? ==> r == Next(state)
    ensures action.AddRaffle? || action.UpdateNumberOfTickets? ==> r == Throws || r == Next(state)
    ensures forall g :: g in state.games && g !in Written(state, action) ==> g.raffles == old(g.raffles)
    ensures action.AddRaffle? ==> (r.Next? <==> 0 <= action.index < |state.games|)
    ensures action.AddRaffle? && r.Next? ==>
              var game := state.games[action.index];
              game.raffles == old(game.raffles) + [action.raffle]
    ensures action.UpdateNumberOfTickets? ==>
              (r.Next? <==> 0 <= action.gameIndex < |state.games|
                            && 0 <= action.raffleIndex < |old(state.games[action.gameIndex].raffles)|)
    ensures action.UpdateNumberOfTickets? && r.Next? ==>
              var game := state.games[action.gameIndex];
              var raffles := old(game.raffles);
              game.raffles == raffles[action.raffleIndex :=
                   UpdatedRow(raffles[action.raffleIndex], action.tickets, action.pot)]
  {
    match action
    case SetAccounts(_) => r := Next(Set(state, action));
    case SetContract(_) => r := Next(Set(state, action));
    case SetWeb3(_) => r := Next(Set(state, action));
    case SetSelf(_) => r := Next(Set(state, action));
    case SetBalance(_) => r := Next(Set(state, action));
    case AddGame(game) => r := Next(WithGame(state, game));
    case AddRaffle(index, raffle) => r := AddRaffleRow(state, index, raffle);
    case UpdateNumberOfTickets(gameIndex, raffleIndex, tickets, pot) =>
      r := UpdateTickets(state, gameIndex, raffleIndex, tickets, pot);
    case Other => r := Next(state);
  }
}
