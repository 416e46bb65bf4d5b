/** The governance program: token holders with enough balance create
    proposals, voters cast one weighted vote each inside the voting window,
    anyone finalizes a proposal after the window against a quorum, and a
    passed proposal is executed after the configured delay. */
module IamaiGovernance {
  import opened Common

  /** The fixed supply the quorum is computed against. */
  const MockTotalSupply: nat := 1_000_000_000

  /** The program's error codes. `AlreadyVoted` is declared and guarded for,
      but the vote record is created by the same instruction, so a second
      vote fails earlier with `AccountAlreadyInUse` (the failure of `init` on
      a vote record that already exists). */
  datatype Error =
    | InsufficientTokensForProposal
    | ProposalNotActive
    | VotingPeriodEnded
    | InsufficientVotingPower
    | AlreadyVoted
    | VotingPeriodNotEnded
    | ProposalNotPassed
    | ExecutionDelayNotMet
    | AccountAlreadyInUse

  datatype ProposalType = Treasury | Technical | Community

  datatype ProposalStatus = Active | Passed | Rejected | Executed

  /** A vote record account, written once by `vote_on_proposal`. */
  datatype VoteRecord = VoteRecord(voter: Pubkey, support: bool, votingPower: nat, hasVoted: bool)

  /** The weight a vote record adds to `votes_for`, to `votes_against`, and
      to `total_votes`. */
  function ForWeight(v: VoteRecord): nat { if v.support then v.votingPower else 0 }
  function AgainstWeight(v: VoteRecord): nat { if v.support then 0 else v.votingPower }
  function PowerWeight(v: VoteRecord): nat { v.votingPower }

  /** The votes needed for quorum: `quorum_percentage` percent of the mock supply. */
  function RequiredQuorum(quorumPercentage: U8): (quorum: nat)
    ensures quorum == quorumPercentage * 10_000_000
    ensures quorumPercentage <= 100 ==> quorum <= MockTotalSupply
    ensures quorumPercentage == 0 ==> quorum == 0
  {
    MockTotalSupply * quorumPercentage / 100
  }

  /** The status changes an instruction may make: Active to Passed or
      Rejected, Passed to Executed, or none. */
  predicate StatusStep(before: ProposalStatus, after: ProposalStatus)
  {
    || before == after
    || (before == Active && (after == Passed || after == Rejected))
    || (before == Passed && after == Executed)
  }

  /** Rejected and Executed are final: no sequence of steps leaves them. */
  lemma {:induction false} TerminalStatusIsFinal(trace: seq<ProposalStatus>)
    requires |trace| > 0 && (trace[0] == Rejected || trace[0] == Executed)
    requires forall i | 0 <= i < |trace| - 1 :: StatusStep(trace[i], trace[i + 1])
    ensures trace[|trace| - 1] == trace[0]
  {
    if |trace| > 1 {
      TerminalStatusIsFinal(trace[1..]);
      assert trace[1..][0] == trace[1];
    }
  }

  /** The governance account. */
  class Governance {
    const authority: Pubkey
    const tokenMint: Pubkey
    const minTokensForProposal: nat
    const quorumPercentage: U8
    const executionDelay: int
    var proposalCount: nat
    const isInitialized: bool

    /** `initialize_governance`. */
    constructor (authority: Pubkey, tokenMint: Pubkey, minTokensForProposal: nat,
                 quorumPercentage: U8, executionDelay: int)
      ensures this.authority == authority && this.tokenMint == tokenMint
      ensures this.minTokensForProposal == minTokensForProposal
      ensures this.quorumPercentage == quorumPercentage && this.executionDelay == executionDelay
      ensures proposalCount == 0 && isInitialized
    {
      this.authority := authority;
      this.tokenMint := tokenMint;
      this.minTokensForProposal := minTokensForProposal;
      this.quorumPercentage := quorumPercentage;
      this.executionDelay := executionDelay;
      proposalCount := 0;
      isInitialized := true;
    }
  }

  /** A proposal account. `votes` is not a field of the account: it holds
      the vote records whose addresses are derived from this proposal,
      keyed by voter. */
  class Proposal {
    const governance: Governance
    const proposer: Pubkey
    const proposalType: ProposalType
    var votesFor: nat
    var votesAgainst: nat
    var totalVotes: nat
    const startTime: int
    const endTime: int
    var executionTime: int
    var status: ProposalStatus
    var quorumReached: bool
    var votes: map<Pubkey, VoteRecord>

    /** The tally is the sum of the vote records' power (split by side),
        quorum and execution time are only set by finalization, a passed
        proposal had quorum and a majority, and every vote record is its
        voter's. */
    ghost predicate Valid()
      reads this
    {
      && totalVotes == votesFor + votesAgainst
      && votesFor == MapSum(votes, ForWeight)
      && votesAgainst == MapSum(votes, AgainstWeight)
      && (status == Active ==> !quorumReached && executionTime == 0)
      && (status == Passed || status == Executed ==> quorumReached && votesFor > votesAgainst)
      && forall v | v in votes :: votes[v].voter == v && votes[v].hasVoted
    }

    constructor (governance: Governance, proposer: Pubkey, proposalType: ProposalType, now: int, votingPeriod: int)
      ensures this.governance == governance && this.proposer == proposer && this.proposalType == proposalType
      ensures votesFor == 0 && votesAgainst == 0 && totalVotes == 0
      ensures startTime == now && endTime == now + votingPeriod && executionTime == 0
      ensures status == Active && !quorumReached && votes == map[]
      ensures Valid()
    {
      this.governance := governance;
      this.proposer := proposer;
      this.proposalType := proposalType;
      votesFor := 0;
      votesAgainst := 0;
      totalVotes := 0;
      startTime := now;
      endTime := now + votingPeriod;
      executionTime := 0;
      status := Active;
      quorumReached := false;
      votes := map[];
    }
  }

  /** `total_votes` is the voting power of all the proposal's vote records. */
  lemma TotalIsAllVotingPower(proposal: Proposal)
    requires proposal.Valid()
    ensures proposal.totalVotes == MapSum(proposal.votes, PowerWeight)
  {
    MapSumAdd(proposal.votes, ForWeight, AgainstWeight, PowerWeight);
  }

  /** `create_proposal`: a proposer holding `balance` tokens opens a proposal
      whose voting window runs from `now` for `votingPeriod` seconds. */
  method CreateProposal(gov: Governance, proposer: Pubkey, balance: nat, proposalType: ProposalType,
                        votingPeriod: int, now: int)
    returns (r: Result<Proposal, Error>)
    modifies gov`proposalCount
    ensures balance < gov.minTokensForProposal ==>
              r == Err(InsufficientTokensForProposal) && gov.proposalCount == old(gov.proposalCount)
    ensures balance >= gov.minTokensForProposal ==>
              && r.Ok? && fresh(r.value) && r.value.Valid()
              && r.value.governance == gov && r.value.proposer == proposer && r.value.proposalType == proposalType
              && r.value.votesFor == 0 && r.value.votesAgainst == 0 && r.value.totalVotes == 0
              && r.value.startTime == now && r.value.endTime == now + votingPeriod && r.value.executionTime == 0
              && r.value.status == Active && !r.value.quorumReached && r.value.votes == map[]
              && gov.proposalCount == old(gov.proposalCount) + 1
  {
    if balance < gov.minTokensForProposal {
      return Err(InsufficientTokensForProposal);
    }
    var proposal := new Proposal(gov, proposer, proposalType, now, votingPeriod);
    gov.proposalCount := gov.proposalCount + 1;
    r := Ok(proposal);
  }

  /** `vote_on_proposal`: `voter`, holding `balance` tokens, casts
      `votingPower` for or against. The vote record is created by this
      instruction, so it fails first if the voter already has one. */
  method VoteOnProposal(proposal: Proposal, voter: Pubkey, balance: nat, support: bool, votingPower: nat, now: int)
    returns (r: Result<(), Error>)
    requires proposal.Valid()
    modifies proposal`votesFor, proposal`votesAgainst, proposal`totalVotes, proposal`votes
    ensures proposal.Valid()
    ensures voter in old(proposal.votes) ==> r == Err(AccountAlreadyInUse)
    ensures voter !in old(proposal.votes) && proposal.status != Active ==> r == Err(ProposalNotActive)
    ensures voter !in old(proposal.votes) && proposal.status == Active &&
            !(proposal.startTime <= now <= proposal.endTime) ==>
              r == Err(VotingPeriodEnded)
    ensures voter !in old(proposal.votes) && proposal.status == Active &&
            proposal.startTime <= now <= proposal.endTime && votingPower > balance ==>
              r == Err(InsufficientVotingPower)
    ensures r.Ok? <==>
              voter !in old(proposal.votes) && proposal.status == Active &&
              proposal.startTime <= now <= proposal.endTime && votingPower <= balance
    ensures r.Err? ==>
              && proposal.votes == old(proposal.votes)
              && proposal.votesFor == old(proposal.votesFor) && proposal.votesAgainst == old(proposal.votesAgainst)
              && proposal.totalVotes == old(proposal.totalVotes)
    ensures r.Ok? ==>
              && proposal.votes == old(proposal.votes)[voter := VoteRecord(voter, support, votingPower, true)]
              && proposal.votesFor == old(proposal.votesFor) + (if support then votingPower else 0)
              && proposal.votesAgainst == old(proposal.votesAgainst) + (if support then 0 else votingPower)
              && proposal.totalVotes == old(proposal.totalVotes) + votingPower
  {
    if voter in proposal.votes {
      return Err(AccountAlreadyInUse);
    }
    if proposal.status != Active {
      return Err(ProposalNotActive);
    }
    if !(proposal.startTime <= now <= proposal.endTime) {
      return Err(VotingPeriodEnded);
    }
    if votingPower > balance {
      return Err(InsufficientVotingPower);
    }
    proposal.votes := proposal.votes[voter := VoteRecord(voter, support, votingPower, true)];
    if support {
      proposal.votesFor := proposal.votesFor + votingPower;
    } else {
      proposal.votesAgainst := proposal.votesAgainst + votingPower;
    }
    proposal.totalVotes := proposal.totalVotes + votingPower;
    MapSumInsert(old(proposal.votes), ForWeight, voter, VoteRecord(voter, support, votingPower, true));
    MapSumInsert(old(proposal.votes), AgainstWeight, voter, VoteRecord(voter, support, votingPower, true));
    r := Ok(());
  }

  /** `finalize_proposal`: after the voting window, decides the outcome. The
      governance account passed in supplies the quorum and delay; it is not
      checked against the proposal's. */
  method FinalizeProposal(gov: Governance, proposal: Proposal, now: int) returns (r: Result<(), Error>)
    requires proposal.Valid()
    modifies proposal`quorumReached, proposal`status, proposal`executionTime
    ensures proposal.Valid()
    ensures StatusStep(old(proposal.status), proposal.status)
    ensures old(proposal.status) != Active ==> r == Err(ProposalNotActive)
    ensures old(proposal.status) == Active && now <= proposal.endTime ==> r == Err(VotingPeriodNotEnded)
    ensures r.Err? ==>
              proposal.status == old(proposal.status) && proposal.quorumReached == old(proposal.quorumReached) &&
              proposal.executionTime == old(proposal.executionTime)
    ensures old(proposal.status) == Active && now > proposal.endTime ==>
              && r == Ok(())
              && proposal.quorumReached == (proposal.totalVotes >= RequiredQuorum(gov.quorumPercentage))
              && (proposal.status == Passed <==> proposal.quorumReached && proposal.votesFor > proposal.votesAgainst)
              && (proposal.status == Passed ==> proposal.executionTime == now + gov.executionDelay)
              && (proposal.status != Passed ==> proposal.status == Rejected && proposal.executionTime == old(proposal.executionTime))
  {
    if proposal.status != Active {
      return Err(ProposalNotActive);
    }
    if now <= proposal.endTime {
      return Err(VotingPeriodNotEnded);
    }
    var requiredQuorum := RequiredQuorum(gov.quorumPercentage);
    proposal.quorumReached := proposal.totalVotes >= requiredQuorum;
    if proposal.quorumReached && proposal.votesFor > proposal.votesAgainst {
      proposal.status := Passed;
      proposal.executionTime := now + gov.executionDelay;
    } else {
      proposal.status := Rejected;
    }
    r := Ok(());
  }

  /** `execute_proposal`: a passed proposal becomes Executed once its
      execution time has come. */
  method ExecuteProposal(proposal: Proposal, now: int) returns (r: Result<(), Error>)
    requires proposal.Valid()
    modifies proposal`status
    ensures proposal.Valid()
    ensures StatusStep(old(proposal.status), proposal.status)
    ensures old(proposal.status) != Passed ==> r == Err(ProposalNotPassed)
    ensures old(proposal.status) == Passed && now < proposal.executionTime ==> r == Err(ExecutionDelayNotMet)
    ensures r.Err? ==> proposal.status == old(proposal.status)
    ensures old(proposal.status) == Passed && now >= proposal.executionTime ==>
              r == Ok(()) && proposal.status == Executed
  {
    if proposal.status != Passed {
      return Err(ProposalNotPassed);
    }
    if now < proposal.executionTime {
      return Err(ExecutionDelayNotMet);
    }
    proposal.status := Executed;
    r := Ok(());
  }

  /** Once a proposal has been finalized, no vote can be added to it, at
      whatever time it is cast. */
  method NoVoteAfterFinalize(gov: Governance, proposal: Proposal, finalizeAt: int,
                             voter: Pubkey, balance: nat, support: bool, votingPower: nat, voteAt: int)
    returns (finalized: Result<(), Error>, voted: Result<(), Error>)
    requires proposal.Valid()
    modifies proposal`quorumReached, proposal`status, proposal`executionTime
    modifies proposal`votesFor, proposal`votesAgainst, proposal`totalVotes, proposal`votes
    ensures finalized.Ok? ==> voted.Err? && proposal.totalVotes == old(proposal.totalVotes)
  {
    finalized := FinalizeProposal(gov, proposal, finalizeAt);
    voted := VoteOnProposal(proposal, voter, balance, support, votingPower, voteAt);
  }
}
