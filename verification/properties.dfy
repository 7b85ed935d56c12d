/** Properties that relate several calls of the contract: reading back what a call
    stored, calls that cannot be repeated, and the life cycle of a tranche's session. */
module Properties {
  import opened Types
  import opened Thresholds
  import opened Crowdfunding
  import opened Accounting

  /** Registering a token makes it supported, keeps every earlier one, and registering it
      again changes nothing. */
  lemma AddTokenThenSupported(s: State, token: Address)
    requires token != NullAddress
    ensures AddNewSupportedToken(s, token).Ok?
    ensures IsTokenSupported(AddNewSupportedToken(s, token).value, token)
    ensures forall t :: IsTokenSupported(s, t) ==> IsTokenSupported(AddNewSupportedToken(s, token).value, t)
    ensures AddNewSupportedToken(AddNewSupportedToken(s, token).value, token) == AddNewSupportedToken(s, token)
  {
    var s' := AddNewSupportedToken(s, token).value;
    assert s'.supportedTokens + {token} == s'.supportedTokens;
  }

  /** The null address is never supported in a reachable state. */
  lemma NullTokenNeverSupported(calls: seq<Call>)
    ensures !IsTokenSupported(Run(Init(), calls), NullAddress)
  {
    InitInv();
    RunKeepsStructure(Init(), calls);
  }

  /** The getters read back a freshly created project: owner, token, goal and vote rule as
      given, funding and tranche index at zero, one closed tranche per given budget (so a
      tranche given closed reads back exactly as given), and `InvalidThresholdId` past the last
      tranche. */
  lemma CreateThenRead(s: State, data: ProjectData, ths: seq<Threshold>)
    requires CreateProject(s, data, ths).Ok?
    ensures var s' := CreateProject(s, data, ths).value;
      var id := |s.projects|;
      && GetProject(s', id).Ok?
      && var p := GetProject(s', id).value;
      && p.owner == data.owner && p.exchangeToken == data.exchangeToken
      && p.requiredAmount == data.requiredAmount && p.requiredVotePercentage == data.requiredVotePercentage
      && p.donationFee == data.donationFee && p.voteCooldown == data.voteCooldown
      && p.currentAmount == 0 && p.availableToWithdraw == 0 && p.currentThreshold == 0 && p.isActive
      && p.NbOfThresholds() == |ths|
      && (forall t :: 0 <= t < |ths| ==> GetProjectThresholds(s', id, t) == Ok(Threshold(ths[t].budget, ClosedSession)))
      && (forall t :: 0 <= t < |ths| && ths[t].voteSession == ClosedSession ==> GetProjectThresholds(s', id, t) == Ok(ths[t]))
      && GetProjectThresholds(s', id, |ths|) == Err(InvalidThresholdId)
      && GetProject(s', id + 1) == Err(InvalidProjectId)
  {
  }

  /** A donation splits its gross amount exactly into the fee pool's growth and the
      project's funding growth; the donor's record grows by the gross amount. */
  lemma DonationSplitsGross(s: State, donor: Address, id: ProjectId, amount: nat, allowance: nat)
    requires DonateToProject(s, donor, id, amount, allowance).Ok?
    ensures var s' := DonateToProject(s, donor, id, amount, allowance).value;
      var p := s.projects[id];
      var q := s'.projects[id];
      var tok := p.exchangeToken;
      var fee := GetFeesAvailableToWithdraw(s', tok) - GetFeesAvailableToWithdraw(s, tok);
      var net := q.currentAmount - p.currentAmount;
      && fee >= 0 && net >= 0
      && fee + net == amount
      && fee * MaxBps <= amount * p.donationFee < (fee + 1) * MaxBps
      && net > 0
      && GetUserDonations(s', donor, id) == Ok(Balance(s.donations, (donor, id)) + amount)
      && q.availableToWithdraw == p.availableToWithdraw + (if p.AllPassed() then net else 0)
  {
    FeeIsRoundedDown(amount, s.projects[id].donationFee);
  }

  /** While tranches remain, a donation leaves the current tranche in session exactly when
      it already was, or when the new funding covers it; a newly opened session starts
      with an empty tally. */
  lemma DonationOpensSessionIff(s: State, donor: Address, id: ProjectId, amount: nat, allowance: nat)
    requires DonateToProject(s, donor, id, amount, allowance).Ok?
    requires !s.projects[id].AllPassed()
    ensures var q := DonateToProject(s, donor, id, amount, allowance).value.projects[id];
      var p := s.projects[id];
      && q.currentThreshold == p.currentThreshold
      && (q.InSession() <==> p.InSession() || Covers(q.currentAmount, q.thresholds, q.currentThreshold))
      && (!p.InSession() && q.InSession() ==> q.CurrentSession() == FreshSession)
  {
    var p := s.projects[id];
    var q := DonateToProject(s, donor, id, amount, allowance).value.projects[id];
    CumulativeBudgetOfSameBudgets(p.thresholds, q.thresholds, p.currentThreshold + 1);
  }

  /** A ballot adds one to exactly one side of the tally, is recorded as cast whatever its
      choice, and the same voter cannot vote again on that tranche. */
  lemma VoteOnlyOnce(s: State, voter: Address, id: ProjectId, vote: bool, again: bool)
    requires VoteForThreshold(s, voter, id, vote).Ok?
    ensures var s' := VoteForThreshold(s, voter, id, vote).value;
      var p := s.projects[id];
      var q := s'.projects[id];
      && q.CurrentSession().Total() == p.CurrentSession().Total() + 1
      && (vote <==> q.CurrentSession().positiveVotes == p.CurrentSession().positiveVotes + 1)
      && (!vote <==> q.CurrentSession().negativeVotes == p.CurrentSession().negativeVotes + 1)
      && GetThresholdVoteFromAddress(s', voter, id, p.currentThreshold) == Ok(true)
      && VoteForThreshold(s', voter, id, again) == Err(CanOnlyVoteOnce)
  {
  }

  /** No call removes a cast ballot. */
  lemma BallotsGrow(s: State, c: Call)
    ensures s.ballots <= Settle(s, c).ballots
  {
  }

  /** A ballot, once cast, stays cast through any later sequence of calls. */
  lemma {:induction false} RunKeepsBallots(s: State, calls: seq<Call>)
    ensures s.ballots <= Run(s, calls).ballots
    decreases |calls|
  {
    if |calls| > 0 {
      BallotsGrow(s, calls[0]);
      RunKeepsBallots(Settle(s, calls[0]), calls[1..]);
    }
  }

  /** One ballot per voter and tranche: however many calls follow a ballot on tranche `t`,
      the voter reads as having voted there, and while `t` is the tranche under vote a new
      ballot from that voter is refused. */
  lemma BallotStaysCast(s: State, calls: seq<Call>, voter: Address, id: ProjectId, t: nat, choice: bool)
    requires (voter, id, t) in s.ballots
    ensures var s' := Run(s, calls);
      && (id < |s'.projects| && t < s'.projects[id].NbOfThresholds() ==>
            GetThresholdVoteFromAddress(s', voter, id, t) == Ok(true))
      && ((id < |s'.projects| && Balance(s'.donations, (voter, id)) > 0 && s'.projects[id].InSession()
           && s'.projects[id].currentThreshold == t) ==> VoteForThreshold(s', voter, id, choice) == Err(CanOnlyVoteOnce))
  {
    RunKeepsBallots(s, calls);
  }

  /** A successful deliberation closes the tranche it decided. The tranche index advances,
      releasing that tranche's budget, exactly when positive ballots times 10000 reach
      (required percentage + 1) times the tally; otherwise nothing is released. */
  lemma DeliberationOutcome(s: State, id: ProjectId)
    requires StructInv(s)
    requires EndThresholdVoting(s, id).Ok?
    ensures var s' := EndThresholdVoting(s, id).value;
      var p := s.projects[id];
      var q := s'.projects[id];
      var v := p.CurrentSession();
      && !q.thresholds[p.currentThreshold].voteSession.isVotingInSession
      && (q.currentThreshold == p.currentThreshold + 1 <==>
            v.positiveVotes * MaxBps >= (p.requiredVotePercentage + 1) * v.Total())
      && (q.currentThreshold == p.currentThreshold + 1 ==>
            q.availableToWithdraw == p.availableToWithdraw + p.thresholds[p.currentThreshold].budget)
      && (q.currentThreshold == p.currentThreshold ==>
            q.availableToWithdraw == p.availableToWithdraw && !q.InSession())
      && q.currentThreshold <= q.NbOfThresholds()
  {
    var p := s.projects[id];
    PassesIffCrossMultiplied(p.CurrentSession(), p.requiredVotePercentage);
    EndThresholdVotingKeeps(s, id);
  }

  /** After a cascade the next tranche is in session exactly when the funding covers it. */
  lemma DeliberationCascade(s: State, id: ProjectId)
    requires StructInv(s)
    requires EndThresholdVoting(s, id).Ok?
    requires EndThresholdVoting(s, id).value.projects[id].currentThreshold == s.projects[id].currentThreshold + 1
    requires !EndThresholdVoting(s, id).value.projects[id].AllPassed()
    ensures var q := EndThresholdVoting(s, id).value.projects[id];
      && (q.InSession() <==> Covers(q.currentAmount, q.thresholds, q.currentThreshold))
      && (q.InSession() ==> q.CurrentSession() == FreshSession)
  {
    var p := s.projects[id];
    var q := EndThresholdVoting(s, id).value.projects[id];
    CumulativeBudgetOfSameBudgets(p.thresholds, q.thresholds, q.currentThreshold + 1);
  }

  /** A tranche whose vote failed opens again, with an empty tally, on the next accepted
      donation; the donors who voted in the failed session still cannot vote on it. */
  lemma FailedTrancheReopens(s: State, id: ProjectId, donor: Address, amount: nat, allowance: nat,
                             voter: Address, choice: bool)
    requires StructInv(s) && AccountingInv(s)
    requires EndThresholdVoting(s, id).Ok?
    requires EndThresholdVoting(s, id).value.projects[id].currentThreshold == s.projects[id].currentThreshold
    requires DonateToProject(EndThresholdVoting(s, id).value, donor, id, amount, allowance).Ok?
    requires (voter, id, s.projects[id].currentThreshold) in s.ballots
    ensures var s'' := DonateToProject(EndThresholdVoting(s, id).value, donor, id, amount, allowance).value;
      && s''.projects[id].currentThreshold == s.projects[id].currentThreshold
      && s''.projects[id].InSession()
      && s''.projects[id].CurrentSession() == FreshSession
      && VoteForThreshold(s'', voter, id, choice).Err?
      && (Balance(s''.donations, (voter, id)) > 0 ==> VoteForThreshold(s'', voter, id, choice) == Err(CanOnlyVoteOnce))
  {
    var p := s.projects[id];
    var s' := EndThresholdVoting(s, id).value;
    var q := s'.projects[id];
    assert Backed(p);
    CumulativeBudgetOfSameBudgets(p.thresholds, q.thresholds, p.currentThreshold + 1);
  }

  /** `withdrawFunds` pays out exactly the prior withdrawable balance and cannot pay twice. */
  lemma WithdrawFundsDrains(s: State, caller: Address, id: ProjectId)
    requires WithdrawFunds(s, caller, id).Ok?
    ensures var po := WithdrawFunds(s, caller, id).value;
      && po.amount == s.projects[id].availableToWithdraw
      && GetProject(po.state, id).Ok? && GetProject(po.state, id).value.availableToWithdraw == 0
      && GetProject(po.state, id).value.currentAmount == s.projects[id].currentAmount
      && WithdrawFunds(po.state, caller, id) == Err(NoFundsToWithdraw)
  {
  }

  /** `withdrawFees` pays out exactly the prior pool and cannot pay twice. */
  lemma WithdrawFeesDrains(s: State, token: Address)
    requires WithdrawFees(s, token).Ok?
    ensures var po := WithdrawFees(s, token).value;
      && po.amount == GetFeesAvailableToWithdraw(s, token)
      && GetFeesAvailableToWithdraw(po.state, token) == 0
      && WithdrawFees(po.state, token) == Err(NoFeesToWithdraw)
  {
  }

  /** Moving funds leaves the source empty, so a second move from it fails; the source
      keeps its status and its released balance. */
  lemma MoveDrainsSource(s: State, from: ProjectId, to: ProjectId)
    requires WithdrawFundsToOtherProject(s, from, to).Ok?
    ensures var s' := WithdrawFundsToOtherProject(s, from, to).value;
      && GetProject(s', from).Ok? && GetProject(s', from).value.currentAmount == 0
      && GetProject(s', from).value.isActive == s.projects[from].isActive
      && GetProject(s', from).value.availableToWithdraw == s.projects[from].availableToWithdraw
      && GetProject(s', to).value.currentAmount == s.projects[to].currentAmount + s.projects[from].currentAmount
      && WithdrawFundsToOtherProject(s', from, to) == Err(NoFundsToWithdraw)
  {
  }

  /** Each setter changes only its own field, which the getter then reads back. */
  lemma SettersReadBack(s: State, id: ProjectId, fee: nat, active: bool, cooldown: nat)
    requires id < |s.projects| && fee <= MaxBps
    ensures GetProject(SetDonationFee(s, id, fee).value, id) == Ok(s.projects[id].(donationFee := fee))
    ensures GetProject(UpdateProjectStatus(s, id, active).value, id) == Ok(s.projects[id].(isActive := active))
    ensures GetProject(UpdateProjectVoteCooldown(s, id, cooldown).value, id)
            == Ok(s.projects[id].(voteCooldown := cooldown))
  {
  }
}
