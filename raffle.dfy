/**
 * One round of Chase the Ace: the Raffle contract.
 *
 * Players buy tickets while the raffle is open, each purchase carrying a commit
 * hash. The owner closes the raffle by revealing the seed committed at creation;
 * closing keeps `pot / raffleCut` and sends the rest (the house cut) to the parent
 * ChaseTheAce contract. Players then reveal their numbers; every reveal is refunded
 * `ticketPrice / revealRefund` out of the pot, and once `revealsNeeded` players have
 * revealed, the winning ticket is derived from all revealed numbers. The owner of that
 * ticket claims whatever is left in the pot, once.
 *
 * Money is modelled as integers: `pot` is the contract's balance, and four ghost
 * totals record what came in and where it went.
 */
module RaffleContract {
  import opened Common

  /** A player's commitment: the hash given at purchase and whether it has been revealed. */
  datatype Commit = Commit(commitHash: Digest, revealed: bool)

  /** Revert reasons. The comments give the message where the tests pin it. */
  datatype RaffleError =
    | RaffleNotOpen        // 'Raffle is not open'
    | CallerIsOwner        // 'Caller must not be the owner'
    | WrongPayment         // msg.value differs from numberOfTickets * ticketPrice
    | CallerNotOwner       // closeRaffle from anyone but the owner
    | RaffleStillOpen      // a reveal before the raffle is closed
    | WinnerAlreadyPicked  // a reveal after the winner is picked
    | NoCommit             // a reveal from an address that never bought a ticket
    | AlreadyRevealed      // 'Revealer cannot have already revealed their commit'
    | HashMismatch         // the revealed number does not hash to the commit
    | InsufficientPot      // the refund is larger than the pot (the transfer reverts)
    | DivisionByZero       // a zero raffleCut, revealRefund or ticket count (EVM panic)
    | WinnerNotPicked      // claimWinnings before enough reveals
    | AlreadyClaimed       // 'Cannot claim winnings more than once'
    | NotWinner            // 'Caller is not the winner of the raffle'

  /** The players whose commit has been revealed. */
  ghost function Revealers(commits: map<Address, Commit>): set<Address>
  {
    set a | a in commits && commits[a].revealed
  }

  /** Revealing one unrevealed commit adds exactly its owner to the revealers. */
  lemma RevealAddsOne(commits: map<Address, Commit>, a: Address)
    requires a in commits && !commits[a].revealed
    ensures a !in Revealers(commits)
    ensures Revealers(commits[a := commits[a].(revealed := true)]) == Revealers(commits) + {a}
    ensures |Revealers(commits[a := commits[a].(revealed := true)])| == |Revealers(commits)| + 1
  {
    var after := commits[a := commits[a].(revealed := true)];
    assert Revealers(after) == Revealers(commits) + {a};
  }

  lemma MulAtLeast(d: int, q: int)
    requires d >= 1 && q >= 0
    ensures d * q >= q
  {
  }

  lemma DivideShrinks(a: nat, d: nat)
    requires d > 0
    ensures a / d <= a
  {
    var q, r := a / d, a % d;
    assert a == d * q + r;
    MulAtLeast(d, q);
  }

  /** The mutable storage of a Raffle, as one value. */
  datatype RoundState = RoundState(
    pot: nat,
    raffleOpen: bool,
    tickets: seq<Address>,
    commits: map<Address, Commit>,
    revealedValues: seq<int>,
    revealsCount: nat,
    winnerPicked: bool,
    winningTicket: nat,
    winningsClaimed: bool)

  class Raffle {
    const owner: Address
    const chaseTheAceAddress: Address
    const ticketPrice: nat
    const ownerCommit: Digest
    const revealsNeeded: nat
    const raffleCut: nat
    const revealRefund: nat
    const sha3: Hasher
    const mix: Mixer

    var pot: nat
    var raffleOpen: bool
    /** tickets[i] is the buyer of ticket i, in purchase order. */
    var tickets: seq<Address>
    var commits: map<Address, Commit>
    /** The revealed numbers in reveal order, the owner's seed first. */
    var revealedValues: seq<int>
    var revealsCount: nat
    var winnerPicked: bool
    var winningTicket: nat
    var winningsClaimed: bool

    /** Every payment received, and every amount sent out, by destination. */
    ghost var collected: nat
    ghost var refunded: nat
    ghost var houseCut: nat
    ghost var paidOut: nat

    ghost function State(): RoundState
      reads this
    {
      RoundState(pot, raffleOpen, tickets, commits, revealedValues, revealsCount,
                 winnerPicked, winningTicket, winningsClaimed)
    }


    ghost predicate Valid()
      reads this
    {
      // no value is created or destroyed: it sits in the pot or has been paid out
      && pot + refunded + houseCut + paidOut == collected
      && revealsCount == |Revealers(commits)|
      && (raffleOpen ==>
            revealsCount == 0 && revealedValues == [] && !winnerPicked && !winningsClaimed
            && refunded == 0 && houseCut == 0)
      && (!raffleOpen ==> |revealedValues| == revealsCount + 1)
      && (winnerPicked ==>
            !raffleOpen && revealsCount == revealsNeeded && winningTicket < |tickets|)
      && (!winnerPicked && revealsNeeded > 0 ==> revealsCount < revealsNeeded)
      && (winningsClaimed ==> winnerPicked && pot == 0)
      && (!winningsClaimed ==> paidOut == 0)
    }

    /** The contract's balance: everything not yet paid out. */
    function Balance(): (b: nat)
      reads this
      requires Valid()
      ensures b + refunded + houseCut + paidOut == collected
    {
      pot
    }

    /** The owner of the winning ticket: the only address claimWinnings pays. */
    function Winner(): (w: Address)
      reads this
      requires Valid() && winnerPicked
      ensures w in tickets
    {
      tickets[winningTicket]
    }

    constructor (owner: Address, chaseTheAceAddress: Address, ticketPrice: nat, commit: Digest,
                 revealsNeeded: nat, raffleCut: nat, revealRefund: nat, sha3: Hasher, mix: Mixer)
      ensures Valid()
      ensures this.owner == owner && this.chaseTheAceAddress == chaseTheAceAddress
      ensures this.ticketPrice == ticketPrice && this.ownerCommit == commit
      ensures this.revealsNeeded == revealsNeeded && this.raffleCut == raffleCut
      ensures this.revealRefund == revealRefund && this.sha3 == sha3 && this.mix == mix
      ensures State() == RoundState(0, true, [], map[], [], 0, false, 0, false)
      ensures collected == 0
    {
      this.owner := owner;
      this.chaseTheAceAddress := chaseTheAceAddress;
      this.ticketPrice := ticketPrice;
      this.ownerCommit := commit;
      this.revealsNeeded := revealsNeeded;
      this.raffleCut := raffleCut;
      this.revealRefund := revealRefund;
      this.sha3 := sha3;
      this.mix := mix;
      pot := 0;
      raffleOpen := true;
      tickets := [];
      commits := map[];
      revealedValues := [];
      revealsCount := 0;
      winnerPicked := false;
      winningTicket := 0;
      winningsClaimed := false;
      collected, refunded, houseCut, paidOut := 0, 0, 0, 0;
    }

    /**
     * buyTickets(commit, numberOfTickets) sent by `caller` with `value` wei attached:
     * appends `numberOfTickets` tickets owned by the caller, adds the payment to the
     * pot and records the caller's commit.
     */
    method BuyTickets(caller: Address, value: nat, commit: Digest, numberOfTickets: nat)
      returns (r: Outcome<RaffleError>)
      requires Valid()
      modifies this
      ensures Valid()
      ensures r.Pass? <==>
                old(raffleOpen) && caller != owner && value == numberOfTickets * ticketPrice
      ensures !old(raffleOpen) ==> r == Fail(RaffleNotOpen)
      ensures old(raffleOpen) && caller == owner ==> r == Fail(CallerIsOwner)
      ensures old(raffleOpen) && caller != owner && value != numberOfTickets * ticketPrice ==>
                r == Fail(WrongPayment)
      ensures r.Fail? ==> unchanged(this)
      ensures r.Pass? ==>
                && |tickets| == old(|tickets|) + numberOfTickets
                && tickets[..old(|tickets|)] == old(tickets)
                && (forall i :: old(|tickets|) <= i < |tickets| ==> tickets[i] == caller)
                && State() == old(State()).(pot := old(pot) + value, tickets := tickets,
                                            commits := old(commits)[caller := Commit(commit, false)])
                && collected == old(collected) + value
                && refunded == old(refunded) && houseCut == old(houseCut) && paidOut == old(paidOut)
    {
      if !raffleOpen {
        return Fail(RaffleNotOpen);
      }
      if caller == owner {
        return Fail(CallerIsOwner);
      }
      if value != numberOfTickets * ticketPrice {
        return Fail(WrongPayment);
      }
      var bought := tickets;
      var i := 0;
      while i < numberOfTickets
        invariant 0 <= i <= numberOfTickets
        invariant bought == tickets + Repeat(caller, i)
      {
        bought := bought + [caller];
        i := i + 1;
      }
      assert Revealers(commits) == {};
      tickets := bought;
      commits := commits[caller := Commit(commit, false)];
      assert Revealers(commits) == {};
      pot := pot + value;
      collected := collected + value;
      r := Pass;
    }

    /**
     * closeRaffle(reveal), owner only: reveals the owner's seed, closes the raffle,
     * keeps pot / raffleCut and returns the house cut sent to the parent contract.
     */
    method CloseRaffle(caller: Address, seed: int) returns (r: Outcome<RaffleError>, cut: nat)
      requires Valid()
      modifies this
      ensures Valid()
      ensures r.Pass? <==>
                caller == owner && old(raffleOpen) && sha3(seed) == ownerCommit && raffleCut > 0
      ensures caller != owner ==> r == Fail(CallerNotOwner)
      ensures caller == owner && !old(raffleOpen) ==> r == Fail(RaffleNotOpen)
      ensures caller == owner && old(raffleOpen) && sha3(seed) != ownerCommit ==> r == Fail(HashMismatch)
      ensures caller == owner && old(raffleOpen) && sha3(seed) == ownerCommit && raffleCut == 0 ==>
                r == Fail(DivisionByZero)
      ensures r.Fail? ==> unchanged(this) && cut == 0
      ensures r.Pass? ==>
                && pot == old(pot) / raffleCut
                && cut == old(pot) - pot
                && State() == old(State()).(pot := pot, raffleOpen := false, revealedValues := [seed])
                && houseCut == old(houseCut) + cut
                && collected == old(collected) && refunded == old(refunded) && paidOut == old(paidOut)
    {
      if caller != owner {
        return Fail(CallerNotOwner), 0;
      }
      if !raffleOpen {
        return Fail(RaffleNotOpen), 0;
      }
      if sha3(seed) != ownerCommit {
        return Fail(HashMismatch), 0;
      }
      if raffleCut == 0 {
        return Fail(DivisionByZero), 0;
      }
      var kept := pot / raffleCut;
      DivideShrinks(pot, raffleCut);
      cut := pot - kept;
      pot := kept;
      raffleOpen := false;
      revealedValues := [seed];
      houseCut := houseCut + cut;
      r := Pass;
    }

    /**
     * submitReveal(value) from `caller`: opens the caller's commit, refunds
     * ticketPrice / revealRefund out of the pot and, on the revealsNeeded-th reveal,
     * picks the winning ticket from all revealed numbers.
     */
    method SubmitReveal(caller: Address, value: int) returns (r: Outcome<RaffleError>, refund: nat)
      requires Valid()
      modifies this
      ensures Valid()
      ensures r.Pass? <==>
                old(!raffleOpen && !winnerPicked && caller in commits && !commits[caller].revealed
                    && sha3(value) == commits[caller].commitHash && revealRefund > 0
                    && ticketPrice / revealRefund <= pot
                    && (revealsCount + 1 == revealsNeeded ==> |tickets| > 0))
      ensures old(raffleOpen) ==> r == Fail(RaffleStillOpen)
      ensures old(!raffleOpen && winnerPicked) ==> r == Fail(WinnerAlreadyPicked)
      ensures old(!raffleOpen && !winnerPicked) && caller !in old(commits) ==> r == Fail(NoCommit)
      ensures old(!raffleOpen && !winnerPicked && caller in commits && commits[caller].revealed) ==>
                r == Fail(AlreadyRevealed)
      ensures old(!raffleOpen && !winnerPicked && caller in commits && !commits[caller].revealed
                  && sha3(value) != commits[caller].commitHash) ==>
                r == Fail(HashMismatch)
      ensures old(!raffleOpen && !winnerPicked && caller in commits && !commits[caller].revealed
                  && sha3(value) == commits[caller].commitHash && revealRefund == 0) ==>
                r == Fail(DivisionByZero)
      ensures old(!raffleOpen && !winnerPicked && caller in commits && !commits[caller].revealed
                  && sha3(value) == commits[caller].commitHash && revealRefund > 0
                  && pot < ticketPrice / revealRefund) ==>
                r == Fail(InsufficientPot)
      ensures old(!raffleOpen && !winnerPicked && caller in commits && !commits[caller].revealed
                  && sha3(value) == commits[caller].commitHash && revealRefund > 0
                  && ticketPrice / revealRefund <= pot
                  && revealsCount + 1 == revealsNeeded && |tickets| == 0) ==>
                r == Fail(DivisionByZero)
      ensures r.Fail? ==> unchanged(this) && refund == 0
      ensures r.Pass? ==>
                && refund == ticketPrice / revealRefund
                && pot == old(pot) - refund
                && commits == old(commits)[caller := old(commits[caller]).(revealed := true)]
                && revealedValues == old(revealedValues) + [value]
                && revealsCount == old(revealsCount) + 1
                && (winnerPicked <==> revealsCount == revealsNeeded)
                && (winnerPicked ==> winningTicket == mix(revealedValues) % |tickets|)
                && (!winnerPicked ==> winningTicket == old(winningTicket))
                && tickets == old(tickets) && !raffleOpen && !winningsClaimed
                && refunded == old(refunded) + refund
                && collected == old(collected) && houseCut == old(houseCut) && paidOut == old(paidOut)
    {
      if raffleOpen {
        return Fail(RaffleStillOpen), 0;
      }
      if winnerPicked {
        return Fail(WinnerAlreadyPicked), 0;
      }
      if caller !in commits {
        return Fail(NoCommit), 0;
      }
      if commits[caller].revealed {
        return Fail(AlreadyRevealed), 0;
      }
      if sha3(value) != commits[caller].commitHash {
        return Fail(HashMismatch), 0;
      }
      if revealRefund == 0 {
        return Fail(DivisionByZero), 0;
      }
      if pot < ticketPrice / revealRefund {
        return Fail(InsufficientPot), 0;
      }
      if revealsCount + 1 == revealsNeeded && |tickets| == 0 {
        return Fail(DivisionByZero), 0;
      }
      refund := RecordReveal(caller, value);
      r := Pass;
    }

    /** The effect of an accepted reveal. */
    method RecordReveal(caller: Address, value: int) returns (refund: nat)
      requires Valid()
      requires !raffleOpen && !winnerPicked && caller in commits && !commits[caller].revealed
      requires revealRefund > 0 && ticketPrice / revealRefund <= pot
      requires revealsCount + 1 == revealsNeeded ==> |tickets| > 0
      modifies this
      ensures Valid()
      ensures refund == ticketPrice / revealRefund
      ensures pot == old(pot) - refund
      ensures commits == old(commits)[caller := old(commits[caller]).(revealed := true)]
      ensures revealedValues == old(revealedValues) + [value]
      ensures revealsCount == old(revealsCount) + 1
      ensures winnerPicked <==> revealsCount == revealsNeeded
      ensures winnerPicked ==> winningTicket == mix(revealedValues) % |tickets|
      ensures !winnerPicked ==> winningTicket == old(winningTicket)
      ensures tickets == old(tickets) && !raffleOpen && !winningsClaimed
      ensures refunded == old(refunded) + refund
      ensures collected == old(collected) && houseCut == old(houseCut) && paidOut == old(paidOut)
    {
      RevealAddsOne(commits, caller);
      commits := commits[caller := commits[caller].(revealed := true)];
      refund := ticketPrice / revealRefund;
      pot := pot - refund;
      refunded := refunded + refund;
      revealedValues := revealedValues + [value];
      revealsCount := revealsCount + 1;
      if revealsCount == revealsNeeded {
        winnerPicked := true;
        winningTicket := mix(revealedValues) % |tickets|;
      }
    }

    /**
     * claimWinnings() from `caller`: only the owner of the winning ticket, only once;
     * pays out the whole pot, after which the raffle holds nothing.
     */
    method ClaimWinnings(caller: Address) returns (r: Outcome<RaffleError>, payout: nat)
      requires Valid()
      modifies this
      ensures Valid()
      ensures r.Pass? <==>
                old(winnerPicked && !winningsClaimed && caller == tickets[winningTicket])
      ensures !old(winnerPicked) ==> r == Fail(WinnerNotPicked)
      ensures old(winnerPicked && winningsClaimed) ==> r == Fail(AlreadyClaimed)
      ensures old(winnerPicked && !winningsClaimed && caller != tickets[winningTicket]) ==>
                r == Fail(NotWinner)
      ensures r.Fail? ==> unchanged(this) && payout == 0
      ensures r.Pass? ==>
                && payout == old(pot)
                && Balance() == 0
                && State() == old(State()).(pot := 0, winningsClaimed := true)
                && paidOut == old(paidOut) + payout
                && collected == old(collected) && refunded == old(refunded) && houseCut == old(houseCut)
    {
      if !winnerPicked {
        return Fail(WinnerNotPicked), 0;
      }
      if winningsClaimed {
        return Fail(AlreadyClaimed), 0;
      }
      if caller != tickets[winningTicket] {
        return Fail(NotWinner), 0;
      }
      // the claim is recorded before the transfer
      winningsClaimed := true;
      payout := pot;
      pot := 0;
      paidOut := paidOut + payout;
      r := Pass;
    }
  }
}
