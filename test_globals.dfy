/**
 * The parameters the test suites play with, and the two loops every full round
 * runs: one ticket bought by each player, then one reveal from each of several players.
 */
module TestGlobals {
  import opened Common
  import opened RaffleContract

  const TicketPrice: nat := 1_000_000_000
  const RevealsNeeded: nat := 5
  const RaffleCut: nat := 2
  const RevealRefund: nat := 2

  /** The number every player and the owner commit to; the commit is its hash. */
  const MockReveal: int := 56

  /** The test accounts: accounts[0] deploys and owns, the others play. All differ. */
  predicate TestAccounts(accounts: seq<Address>)
  {
    |accounts| >= 7 && Distinct(accounts)
  }

  /** A raffle as created with the parameters above, before anything happened to it. */
  ghost predicate FreshRaffle(raffle: Raffle, owner: Address, parent: Address, sha3: Hasher, mix: Mixer)
    reads raffle
  {
    && raffle.Valid()
    && raffle.owner == owner && raffle.chaseTheAceAddress == parent
    && raffle.ticketPrice == TicketPrice && raffle.ownerCommit == sha3(MockReveal)
    && raffle.revealsNeeded == RevealsNeeded && raffle.raffleCut == RaffleCut
    && raffle.revealRefund == RevealRefund && raffle.sha3 == sha3 && raffle.mix == mix
    && raffle.State() == RoundState(0, true, [], map[], [], 0, false, 0, false)
  }

  /** A slice of distinct addresses is distinct. */
  lemma DistinctSlice(s: seq<Address>, lo: nat, hi: nat)
    requires Distinct(s) && lo <= hi <= |s|
    ensures Distinct(s[lo..hi])
  {
    forall i, j | 0 <= i < j < hi - lo
      ensures s[lo..hi][i] != s[lo..hi][j]
    {
      assert s[lo..hi][i] == s[lo + i] && s[lo..hi][j] == s[lo + j];
    }
  }

  /** With i of n payments of r made, the next one is covered by what n * r leaves. */
  lemma MoreToPay(n: nat, i: nat, r: nat)
    requires i < n
    ensures i * r + r <= n * r && (i + 1) * r == i * r + r
  {
    assert n * r == (n - i - 1) * r + (i + 1) * r;
  }

  /** Each of `players`, in order, buys one ticket paying `ticketPrice`. */
  method BuyOneTicketEach(raffle: Raffle, players: seq<Address>, commit: Digest)
    requires raffle.Valid() && raffle.raffleOpen
    requires forall p :: p in players ==> p != raffle.owner
    modifies raffle
    ensures raffle.Valid() && raffle.raffleOpen
    ensures raffle.tickets == old(raffle.tickets) + players
    ensures raffle.pot == old(raffle.pot) + |players| * raffle.ticketPrice
    ensures forall p :: p in players ==> p in raffle.commits && raffle.commits[p] == Commit(commit, false)
    ensures forall p :: p in old(raffle.commits) && p !in players ==>
              p in raffle.commits && raffle.commits[p] == old(raffle.commits[p])
    ensures raffle.winningTicket == old(raffle.winningTicket)
  {
    for i := 0 to |players|
      invariant raffle.Valid() && raffle.raffleOpen
      invariant raffle.tickets == old(raffle.tickets) + players[..i]
      invariant raffle.pot == old(raffle.pot) + i * raffle.ticketPrice
      invariant forall p :: p in players[..i] ==>
                  p in raffle.commits && raffle.commits[p] == Commit(commit, false)
      invariant forall p :: p in old(raffle.commits) && p !in players[..i] ==>
                  p in raffle.commits && raffle.commits[p] == old(raffle.commits[p])
      invariant raffle.winningTicket == old(raffle.winningTicket)
    {
      assert players[i] in players;
      var r := raffle.BuyTickets(players[i], raffle.ticketPrice, commit, 1);
      assert r.Pass?;
      assert players[..i + 1] == players[..i] + [players[i]];
    }
    assert players[..|players|] == players;
  }

  /**
   * Each of `players`, in order, reveals `value`. The last of them completes the
   * reveals the raffle needs exactly when the counts add up.
   */
  method RevealEach(raffle: Raffle, players: seq<Address>, value: int)
    requires raffle.Valid() && !raffle.raffleOpen && !raffle.winnerPicked
    requires Distinct(players)
    requires forall p :: p in players ==>
               p in raffle.commits && raffle.commits[p] == Commit(raffle.sha3(value), false)
    requires raffle.revealRefund > 0 && raffle.revealsNeeded > 0
    requires raffle.revealsCount + |players| <= raffle.revealsNeeded
    requires |players| * (raffle.ticketPrice / raffle.revealRefund) <= raffle.pot
    requires |raffle.tickets| > 0
    modifies raffle
    ensures raffle.Valid() && !raffle.raffleOpen && !raffle.winningsClaimed
    ensures raffle.pot == old(raffle.pot) - |players| * (raffle.ticketPrice / raffle.revealRefund)
    ensures forall p :: p in players ==> p in raffle.commits && raffle.commits[p].revealed
    ensures raffle.revealsCount == old(raffle.revealsCount) + |players|
    ensures raffle.winnerPicked <==> raffle.revealsCount == raffle.revealsNeeded
    ensures raffle.tickets == old(raffle.tickets)
  {
    var refund := raffle.ticketPrice / raffle.revealRefund;
    for i := 0 to |players|
      invariant raffle.Valid() && !raffle.raffleOpen && !raffle.winningsClaimed
      invariant raffle.pot == old(raffle.pot) - i * refund
      invariant raffle.revealsCount == old(raffle.revealsCount) + i
      invariant raffle.winnerPicked <==> raffle.revealsCount == raffle.revealsNeeded
      invariant forall p :: p in players[..i] ==> p in raffle.commits && raffle.commits[p].revealed
      invariant forall j :: i <= j < |players| ==>
                  players[j] in raffle.commits
                  && raffle.commits[players[j]] == Commit(raffle.sha3(value), false)
      invariant raffle.tickets == old(raffle.tickets)
    {
      MoreToPay(|players|, i, refund);
      assert players[i] in raffle.commits && raffle.commits[players[i]] == Commit(raffle.sha3(value), false);
      ghost var before := raffle.commits;
      var r, paid := raffle.SubmitReveal(players[i], value);
      assert r.Pass?;
      assert raffle.commits == before[players[i] := Commit(raffle.sha3(value), true)];
      assert players[..i + 1] == players[..i] + [players[i]];
    }
    assert players[..|players|] == players;
  }
}
