/**
 * The ChaseTheAce tournament contract: a chain of raffles. After each raffle the
 * round winner and the owner draw a card with a two-party commit-reveal exchange
 * (player commits, owner commits, player reveals, owner reveals). Drawing card 0,
 * the ace, makes the round winner the tournament winner, who may then claim the
 * jackpot once. The house cut of every raffle is credited to the jackpot.
 */
module ChaseTheAceContract {
  import opened Common
  import opened RaffleContract

  /** Cards in the deck: a drawn card is a number below this. */
  const DeckSize: nat := 52

  /** Where the card draw of the current round stands. */
  datatype Draw =
    | Idle
    | PlayerCommitted(player: Address, playerHash: Digest)
    | BothCommitted(player: Address, playerHash: Digest, ownerHash: Digest)
    | PlayerRevealed(player: Address, ownerHash: Digest, playerValue: int)

  /** Revert reasons. The comments give the message where the tests pin it. */
  datatype GameError =
    | CurrentRaffleNotEnded  // 'Current Raffle must have ended'
    | GameOver               // newRaffle after the ace was drawn
    | NoRaffle               // a card draw before any raffle exists
    | CardAlreadyDrawn       // the current raffle already has its card
    | RaffleWinnerNotPicked  // the current raffle has no winner yet
    | NotRaffleWinner        // the card draw is the current raffle winner's
    | CallerNotGameOwner     // ownerCommit / ownerReveal from anyone but the owner
    | OutOfTurn              // a card-draw step out of order
    | CardHashMismatch       // the revealed number does not hash to the commit
    | NoWinnerYet            // claimWinnings before the ace is drawn
    | NotGameWinner          // claimWinnings from anyone but the winner
    | WinningsAlreadyClaimed // claimWinnings twice

  class ChaseTheAce {
    const owner: Address
    /** This contract's own address: the parent link of every raffle it creates. */
    const address: Address
    const sha3: Hasher
    const mix: Mixer

    var jackpot: nat
    var winningsClaimed: bool
    var raffles: seq<Raffle>
    /** picks[i] is the card drawn after raffle i. */
    var picks: seq<nat>
    var winner: Option<Address>
    var draw: Draw

    /** House cuts received, and what the winner was paid. */
    ghost var received: nat
    ghost var paidOut: nat

    ghost predicate Valid()
      reads this
    {
      && jackpot + paidOut == received
      && |picks| <= |raffles| <= |picks| + 1
      && (draw != Idle ==> |picks| < |raffles|)
      // the ace ends the game: it is the last card drawn, and only then is there a winner
      && (forall i :: 0 <= i < |picks| ==> (picks[i] == 0 <==> winner.Some? && i == |picks| - 1))
      && (winner.Some? ==> |picks| == |raffles| && draw == Idle)
      && (winningsClaimed ==> winner.Some?)
      && (!winningsClaimed ==> paidOut == 0)
      && (forall i :: 0 <= i < |raffles| ==> raffles[i].chaseTheAceAddress == address)
    }

    /** The raffle being played: the last one created. */
    function CurrentRaffle(): (r: Raffle)
      reads this
      requires |raffles| > 0
      ensures r in raffles
    {
      raffles[|raffles| - 1]
    }

    constructor (owner: Address, address: Address, sha3: Hasher, mix: Mixer)
      ensures Valid()
      ensures this.owner == owner && this.address == address
      ensures this.sha3 == sha3 && this.mix == mix
      ensures jackpot == 0 && !winningsClaimed
      ensures raffles == [] && picks == [] && winner == None && draw == Idle
      ensures received == 0
    {
      this.owner := owner;
      this.address := address;
      this.sha3 := sha3;
      this.mix := mix;
      jackpot := 0;
      winningsClaimed := false;
      raffles := [];
      picks := [];
      winner := None;
      draw := Idle;
      received, paidOut := 0, 0;
    }

    /**
     * newRaffle(raffleOwner, ticketPrice, commit, revealsNeeded, raffleCut, revealRefund):
     * starts the next raffle, once the current one has its winner and its card.
     */
    method NewRaffle(raffleOwner: Address, ticketPrice: nat, commit: Digest, revealsNeeded: nat,
                     raffleCut: nat, revealRefund: nat)
      returns (r: Outcome<GameError>)
      requires Valid()
      modifies this
      ensures Valid()
      ensures r.Pass? <==>
                old(|raffles| == 0 || (CurrentRaffle().winnerPicked && |picks| == |raffles|))
                && old(winner) == None
      ensures old(|raffles| > 0 && !(CurrentRaffle().winnerPicked && |picks| == |raffles|)) ==>
                r == Fail(CurrentRaffleNotEnded)
      ensures old((|raffles| == 0 || (CurrentRaffle().winnerPicked && |picks| == |raffles|))
                  && winner.Some?) ==>
                r == Fail(GameOver)
      ensures r.Fail? ==> unchanged(this)
      ensures r.Pass? ==>
                && |raffles| == old(|raffles|) + 1
                && raffles[..old(|raffles|)] == old(raffles)
                && fresh(CurrentRaffle())
                && CurrentRaffle().Valid()
                && CurrentRaffle().State() == RoundState(0, true, [], map[], [], 0, false, 0, false)
                && CurrentRaffle().owner == raffleOwner
                && CurrentRaffle().chaseTheAceAddress == address
                && CurrentRaffle().ticketPrice == ticketPrice
                && CurrentRaffle().ownerCommit == commit
                && CurrentRaffle().revealsNeeded == revealsNeeded
                && CurrentRaffle().raffleCut == raffleCut
                && CurrentRaffle().revealRefund == revealRefund
                && CurrentRaffle().sha3 == sha3 && CurrentRaffle().mix == mix
                && CurrentRaffle().collected == 0
                && jackpot == old(jackpot) && !winningsClaimed && picks == old(picks)
                && winner == old(winner) && draw == old(draw)
                && received == old(received) && paidOut == old(paidOut)
    {
      if |raffles| > 0 && !(CurrentRaffle().winnerPicked && |picks| == |raffles|) {
        return Fail(CurrentRaffleNotEnded);
      }
      if winner.Some? {
        return Fail(GameOver);
      }
      var raffle := new Raffle(raffleOwner, address, ticketPrice, commit, revealsNeeded,
                               raffleCut, revealRefund, sha3, mix);
      raffles := raffles + [raffle];
      r := Pass;
    }

    /** The house cut a raffle sends to this contract is added to the jackpot. */
    method Receive(amount: nat)
      requires Valid()
      modifies this
      ensures Valid()
      ensures jackpot == old(jackpot) + amount && received == old(received) + amount
      ensures raffles == old(raffles) && picks == old(picks) && winner == old(winner)
      ensures draw == old(draw) && winningsClaimed == old(winningsClaimed) && paidOut == old(paidOut)
    {
      jackpot := jackpot + amount;
      received := received + amount;
    }

    /** playerCommit(commit): the winner of the current raffle opens the card draw. */
    method PlayerCommit(caller: Address, commit: Digest) returns (r: Outcome<GameError>)
      requires Valid()
      requires |raffles| > 0 ==> CurrentRaffle().Valid()
      modifies this
      ensures Valid()
      ensures r.Pass? <==>
                old(|raffles| > 0 && |picks| < |raffles| && CurrentRaffle().winnerPicked
                    && draw == Idle && caller == CurrentRaffle().Winner())
      ensures old(|raffles|) == 0 ==> r == Fail(NoRaffle)
      ensures old(|raffles| > 0 && |picks| == |raffles|) ==> r == Fail(CardAlreadyDrawn)
      ensures old(|raffles| > 0 && |picks| < |raffles| && !CurrentRaffle().winnerPicked) ==>
                r == Fail(RaffleWinnerNotPicked)
      ensures old(|raffles| > 0 && |picks| < |raffles| && CurrentRaffle().winnerPicked && draw != Idle) ==>
                r == Fail(OutOfTurn)
      ensures old(|raffles| > 0 && |picks| < |raffles| && CurrentRaffle().winnerPicked && draw == Idle
                  && caller != CurrentRaffle().Winner()) ==>
                r == Fail(NotRaffleWinner)
      ensures r.Fail? ==> unchanged(this)
      ensures r.Pass? ==>
                draw == PlayerCommitted(caller, commit)
                && raffles == old(raffles) && picks == old(picks) && winner == old(winner)
                && jackpot == old(jackpot) && winningsClaimed == old(winningsClaimed)
                && received == old(received) && paidOut == old(paidOut)
    {
      if |raffles| == 0 {
        return Fail(NoRaffle);
      }
      if |picks| == |raffles| {
        return Fail(CardAlreadyDrawn);
      }
      var current := CurrentRaffle();
      if !current.winnerPicked {
        return Fail(RaffleWinnerNotPicked);
      }
      if draw != Idle {
        return Fail(OutOfTurn);
      }
      if caller != current.Winner() {
        return Fail(NotRaffleWinner);
      }
      draw := PlayerCommitted(caller, commit);
      r := Pass;
    }

    /** ownerCommit(commit): the owner's answer to the round winner's commit. */
    method OwnerCommit(caller: Address, commit: Digest) returns (r: Outcome<GameError>)
      requires Valid()
      modifies this
      ensures Valid()
      ensures r.Pass? <==> caller == owner && old(draw).PlayerCommitted?
      ensures caller != owner ==> r == Fail(CallerNotGameOwner)
      ensures caller == owner && !old(draw).PlayerCommitted? ==> r == Fail(OutOfTurn)
      ensures r.Fail? ==> unchanged(this)
      ensures r.Pass? ==>
                draw == BothCommitted(old(draw).player, old(draw).playerHash, commit)
                && raffles == old(raffles) && picks == old(picks) && winner == old(winner)
                && jackpot == old(jackpot) && winningsClaimed == old(winningsClaimed)
                && received == old(received) && paidOut == old(paidOut)
    {
      if caller != owner {
        return Fail(CallerNotGameOwner);
      }
      if !draw.PlayerCommitted? {
        return Fail(OutOfTurn);
      }
      draw := BothCommitted(draw.player, draw.playerHash, commit);
      r := Pass;
    }

    /** playerReveal(value): the round winner opens their commit. */
    method PlayerReveal(caller: Address, value: int) returns (r: Outcome<GameError>)
      requires Valid()
      modifies this
      ensures Valid()
      ensures r.Pass? <==>
                old(draw.BothCommitted? && caller == draw.player && sha3(value) == draw.playerHash)
      ensures !old(draw).BothCommitted? ==> r == Fail(OutOfTurn)
      ensures old(draw.BothCommitted? && caller != draw.player) ==> r == Fail(NotRaffleWinner)
      ensures old(draw.BothCommitted? && caller == draw.player && sha3(value) != draw.playerHash) ==>
                r == Fail(CardHashMismatch)
      ensures r.Fail? ==> unchanged(this)
      ensures r.Pass? ==>
                draw == PlayerRevealed(old(draw).player, old(draw).ownerHash, value)
                && raffles == old(raffles) && picks == old(picks) && winner == old(winner)
                && jackpot == old(jackpot) && winningsClaimed == old(winningsClaimed)
                && received == old(received) && paidOut == old(paidOut)
    {
      if !draw.BothCommitted? {
        return Fail(OutOfTurn);
      }
      if caller != draw.player {
        return Fail(NotRaffleWinner);
      }
      if sha3(value) != draw.playerHash {
        return Fail(CardHashMismatch);
      }
      draw := PlayerRevealed(draw.player, draw.ownerHash, value);
      r := Pass;
    }

    /**
     * ownerReveal(value): the owner opens their commit, which draws the card for the
     * current raffle; the ace makes the round winner the tournament winner.
     */
    method OwnerReveal(caller: Address, value: int) returns (r: Outcome<GameError>, card: nat)
      requires Valid()
      modifies this
      ensures Valid()
      ensures r.Pass? <==>
                caller == owner && old(draw.PlayerRevealed? && sha3(value) == draw.ownerHash)
      ensures caller != owner ==> r == Fail(CallerNotGameOwner)
      ensures caller == owner && !old(draw).PlayerRevealed? ==> r == Fail(OutOfTurn)
      ensures caller == owner && old(draw.PlayerRevealed? && sha3(value) != draw.ownerHash) ==>
                r == Fail(CardHashMismatch)
      ensures r.Fail? ==> unchanged(this) && card == 0
      ensures r.Pass? ==>
                && card == mix([old(draw).playerValue, value]) % DeckSize
                && card < DeckSize
                && picks == old(picks) + [card]
                && |picks| == |raffles|
                && draw == Idle
                && winner == (if card == 0 then Some(old(draw).player) else None)
                && raffles == old(raffles) && jackpot == old(jackpot)
                && winningsClaimed == old(winningsClaimed)
                && received == old(received) && paidOut == old(paidOut)
    {
      if caller != owner {
        return Fail(CallerNotGameOwner), 0;
      }
      if !draw.PlayerRevealed? {
        return Fail(OutOfTurn), 0;
      }
      if sha3(value) != draw.ownerHash {
        return Fail(CardHashMismatch), 0;
      }
      card := mix([draw.playerValue, value]) % DeckSize;
      picks := picks + [card];
      if card == 0 {
        winner := Some(draw.player);
      }
      draw := Idle;
      r := Pass;
    }

    /** claimWinnings(): the tournament winner takes the whole jackpot, once. */
    method ClaimWinnings(caller: Address) returns (r: Outcome<GameError>, payout: nat)
      requires Valid()
      modifies this
      ensures Valid()
      ensures r.Pass? <==> old(winner == Some(caller) && !winningsClaimed)
      ensures old(winner) == None ==> r == Fail(NoWinnerYet)
      ensures old(winner.Some? && winner != Some(caller)) ==> r == Fail(NotGameWinner)
      ensures old(winner.Some? && winningsClaimed) && old(winner) == Some(caller) ==>
                r == Fail(WinningsAlreadyClaimed)
      ensures r.Fail? ==> unchanged(this) && payout == 0
      ensures r.Pass? ==>
                && winningsClaimed
                && payout == old(jackpot)
                && jackpot == 0
                && paidOut == old(paidOut) + payout
                && raffles == old(raffles) && picks == old(picks) && winner == old(winner)
                && draw == old(draw) && received == old(received)
    {
      if winner.None? {
        return Fail(NoWinnerYet), 0;
      }
      if caller != winner.value {
        return Fail(NotGameWinner), 0;
      }
      if winningsClaimed {
        return Fail(WinningsAlreadyClaimed), 0;
      }
      // the claim is recorded before the transfer
      winningsClaimed := true;
      payout := jackpot;
      jackpot := 0;
      paidOut := paidOut + payout;
      r := Pass;
    }
  }
}
