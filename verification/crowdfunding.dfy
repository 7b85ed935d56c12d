/** The escrow and governance state machine of the `Crowdfunding` contract: token
    registry, project registry, donations with fee skimming, per-tranche voting,
    deliberation with cascading session opening, and the three settlement paths.
    Every entry point is a pure function from the state before the call to either
    the state after it or the error it reverts with. */
module Crowdfunding {
  import opened Types
  import opened Thresholds

  type ProjectId = nat

  /** The creation parameters of a project, before validation. */
  datatype ProjectData = ProjectData(
    owner: Address,
    exchangeToken: Address,
    requiredAmount: nat,
    requiredVotePercentage: nat,
    voteCooldown: nat,
    donationFee: nat)

  /** A project record. `withdrawn` is a bookkeeping counter of the model (the total
      paid out to the owner so far); the contract does not expose it. */
  datatype Project = Project(
    owner: Address,
    exchangeToken: Address,
    requiredAmount: nat,
    currentAmount: nat,
    availableToWithdraw: nat,
    currentThreshold: nat,
    requiredVotePercentage: Bps,
    donationFee: Bps,
    voteCooldown: nat,
    isActive: bool,
    thresholds: seq<Threshold>,
    withdrawn: nat)
  {
    function NbOfThresholds(): nat { |thresholds| }

    /** Every tranche has passed its vote. */
    predicate AllPassed() { currentThreshold >= |thresholds| }

    /** The current tranche has an open vote session. */
    predicate InSession() { !AllPassed() && thresholds[currentThreshold].voteSession.isVotingInSession }

    function CurrentSession(): VoteSession
      requires !AllPassed()
    {
      thresholds[currentThreshold].voteSession
    }
  }

  /** The persistent state of the contract. `holdings` is the escrow's own balance of
      each token in the token ledger; the rest mirrors the contract's storage. */
  datatype State = State(
    supportedTokens: set<Address>,
    projects: seq<Project>,
    donations: map<(Address, ProjectId), nat>,
    ballots: set<(Address, ProjectId, nat)>,
    fees: map<Address, nat>,
    holdings: map<Address, nat>)

  /** The state right after deployment. */
  function Init(): State
  {
    State({}, [], map[], {}, map[], map[])
  }

  /** A balance-style lookup: missing keys read as 0, as a Solidity mapping does. */
  function Balance<K>(m: map<K, nat>, k: K): nat
  {
    if k in m then m[k] else 0
  }

  function Credit<K(!new)>(m: map<K, nat>, k: K, x: nat): (r: map<K, nat>)
    ensures Balance(r, k) == Balance(m, k) + x
    ensures forall k' :: k' != k ==> Balance(r, k') == Balance(m, k')
  {
    m[k := Balance(m, k) + x]
  }

  function Debit<K(!new)>(m: map<K, nat>, k: K, x: nat): (r: map<K, nat>)
    requires x <= Balance(m, k)
    ensures Balance(r, k) + x == Balance(m, k)
    ensures forall k' :: k' != k ==> Balance(r, k') == Balance(m, k')
  {
    m[k := Balance(m, k) - x]
  }

  function UpdateProject(s: State, id: ProjectId, p: Project): (r: State)
    requires id < |s.projects|
    ensures |r.projects| == |s.projects| && r.projects[id] == p
    ensures forall j :: 0 <= j < |s.projects| && j != id ==> r.projects[j] == s.projects[j]
    ensures r == s.(projects := r.projects)
  {
    s.(projects := s.projects[id := p])
  }

  // ----- Token registry -----

  function AddNewSupportedToken(s: State, token: Address): (r: Result<State>)
    ensures token == NullAddress <==> r == Err(ZeroAddress)
    ensures r.Ok? ==> r.value == s.(supportedTokens := s.supportedTokens + {token})
    ensures r.Ok? || r == Err(ZeroAddress)
  {
    if token == NullAddress then Err(ZeroAddress)
    else Ok(s.(supportedTokens := s.supportedTokens + {token}))
  }

  function IsTokenSupported(s: State, token: Address): (r: bool)
    ensures r <==> token in s.supportedTokens
  {
    token in s.supportedTokens
  }

  // ----- Project registry -----

  /** `e` names a real defect of the creation request. */
  predicate IsFlaw(s: State, data: ProjectData, ths: seq<Threshold>, e: Error): (b: bool)
    ensures b ==> e in {TokenNotSupported, ZeroThresholds, ZeroRequiredAmount, CantGoAbove10000,
                        ZeroAddress, ZeroVoteCooldown, ZeroRequiredVotePercentage}
  {
    match e
    case TokenNotSupported => data.exchangeToken !in s.supportedTokens
    case ZeroThresholds => |ths| == 0
    case ZeroRequiredAmount => data.requiredAmount == 0
    case CantGoAbove10000 => data.requiredVotePercentage > MaxBps || data.donationFee > MaxBps
    case ZeroAddress => data.owner == NullAddress
    case ZeroVoteCooldown => data.voteCooldown == 0
    case ZeroRequiredVotePercentage => data.requiredVotePercentage == 0
    case _ => false
  }

  /** The record `createProject` appends: funding, release and tranche index at zero, active,
      the budgets as given with every session closed. */
  function NewProject(data: ProjectData, ths: seq<Threshold>): (p: Project)
    requires data.requiredVotePercentage <= MaxBps && data.donationFee <= MaxBps
    ensures p.owner == data.owner && p.exchangeToken == data.exchangeToken
    ensures p.requiredAmount == data.requiredAmount && p.voteCooldown == data.voteCooldown
    ensures p.requiredVotePercentage == data.requiredVotePercentage && p.donationFee == data.donationFee
    ensures p.currentAmount == 0 && p.availableToWithdraw == 0 && p.currentThreshold == 0 && p.withdrawn == 0
    ensures p.isActive
    ensures SameBudgets(ths, p.thresholds) && p.NbOfThresholds() == |ths|
    ensures forall k :: 0 <= k < |p.thresholds| ==> p.thresholds[k].voteSession == ClosedSession
  {
    Project(data.owner, data.exchangeToken, data.requiredAmount, 0, 0, 0,
            data.requiredVotePercentage, data.donationFee, data.voteCooldown, true, Closed(ths), 0)
  }

  function CreateProject(s: State, data: ProjectData, ths: seq<Threshold>): (r: Result<State>)
    ensures r.Err? ==> IsFlaw(s, data, ths, r.error)
    ensures r.Ok? ==> forall e :: !IsFlaw(s, data, ths, e)
    ensures r.Ok? ==> data.requiredVotePercentage <= MaxBps && data.donationFee <= MaxBps
    ensures r.Ok? ==> r.value == s.(projects := s.projects + [NewProject(data, ths)])
  {
    if data.exchangeToken !in s.supportedTokens then Err(TokenNotSupported)
    else if |ths| == 0 then Err(ZeroThresholds)
    else if data.requiredAmount == 0 then Err(ZeroRequiredAmount)
    else if data.requiredVotePercentage > MaxBps || data.donationFee > MaxBps then Err(CantGoAbove10000)
    else if data.owner == NullAddress then Err(ZeroAddress)
    else if data.voteCooldown == 0 then Err(ZeroVoteCooldown)
    else if data.requiredVotePercentage == 0 then Err(ZeroRequiredVotePercentage)
    else Ok(s.(projects := s.projects + [NewProject(data, ths)]))
  }

  /** A request with exactly one defect is refused with the error naming that defect,
      whatever order the checks run in. */
  lemma LoneFlawIsReported(s: State, data: ProjectData, ths: seq<Threshold>, e: Error)
    requires IsFlaw(s, data, ths, e)
    requires forall e' :: IsFlaw(s, data, ths, e') ==> e' == e
    ensures CreateProject(s, data, ths) == Err(e)
  {
  }

  function UpdateProjectStatus(s: State, id: ProjectId, active: bool): (r: Result<State>)
    ensures id >= |s.projects| <==> r == Err(InvalidProjectId)
    ensures r.Ok? || r == Err(InvalidProjectId)
    ensures r.Ok? ==> r.value == UpdateProject(s, id, s.projects[id].(isActive := active))
  {
    if id >= |s.projects| then Err(InvalidProjectId)
    else Ok(UpdateProject(s, id, s.projects[id].(isActive := active)))
  }

  function UpdateProjectVoteCooldown(s: State, id: ProjectId, cooldown: nat): (r: Result<State>)
    ensures id >= |s.projects| <==> r == Err(InvalidProjectId)
    ensures r.Ok? || r == Err(InvalidProjectId)
    ensures r.Ok? ==> r.value == UpdateProject(s, id, s.projects[id].(voteCooldown := cooldown))
  {
    if id >= |s.projects| then Err(InvalidProjectId)
    else Ok(UpdateProject(s, id, s.projects[id].(voteCooldown := cooldown)))
  }

  function SetDonationFee(s: State, id: ProjectId, fee: nat): (r: Result<State>)
    ensures id >= |s.projects| ==> r == Err(InvalidProjectId)
    ensures id < |s.projects| && fee > MaxBps ==> r == Err(CantGoAbove10000)
    ensures r.Ok? <==> id < |s.projects| && fee <= MaxBps
    ensures r.Ok? ==> r.value == UpdateProject(s, id, s.projects[id].(donationFee := fee))
  {
    if id >= |s.projects| then Err(InvalidProjectId)
    else if fee > MaxBps then Err(CantGoAbove10000)
    else Ok(UpdateProject(s, id, s.projects[id].(donationFee := fee)))
  }

  // ----- Donations -----

  /** Credits `net` to a project: the funding grows; once every tranche has passed the
      net is released at once; otherwise the current tranche's session opens when it was
      closed and the funding now covers that tranche. */
  function Fund(p: Project, net: nat): (q: Project)
    ensures q.currentAmount == p.currentAmount + net
    ensures q.availableToWithdraw == p.availableToWithdraw + (if p.AllPassed() then net else 0)
    ensures q.currentThreshold == p.currentThreshold
    ensures SameBudgets(p.thresholds, q.thresholds)
    ensures !p.AllPassed() ==>
      (q.InSession() <==> p.InSession() || Covers(q.currentAmount, p.thresholds, p.currentThreshold))
    ensures !p.InSession() && q.InSession() ==> q.CurrentSession() == FreshSession
    ensures p.InSession() || !q.InSession() ==> q.thresholds == p.thresholds
    ensures forall k :: 0 <= k < |p.thresholds| && k != p.currentThreshold ==> q.thresholds[k] == p.thresholds[k]
    ensures q == p.(currentAmount := q.currentAmount, availableToWithdraw := q.availableToWithdraw, thresholds := q.thresholds)
  {
    var funded := p.(currentAmount := p.currentAmount + net);
    if p.AllPassed() then
      funded.(availableToWithdraw := p.availableToWithdraw + net)
    else if !p.InSession() && Covers(funded.currentAmount, p.thresholds, p.currentThreshold) then
      funded.(thresholds := WithSession(p.thresholds, p.currentThreshold, FreshSession))
    else
      funded
  }

  /** `donateToProject(id, amount)` from `donor`, who has approved `allowance` to the escrow.
      A donation whose net credit would be zero (a 100% fee) is refused as too small. */
  function DonateToProject(s: State, donor: Address, id: ProjectId, amount: nat, allowance: nat): (r: Result<State>)
    ensures id >= |s.projects| ==> r == Err(InvalidProjectId)
    ensures id < |s.projects| && amount == 0 ==> r == Err(ZeroAmount)
    ensures id < |s.projects| && amount > 0 && !s.projects[id].isActive ==> r == Err(ProjectNotActive)
    ensures id < |s.projects| && s.projects[id].isActive && 0 < amount < MinDonation ==> r == Err(AmountTooSmall)
    ensures id < |s.projects| && s.projects[id].isActive && 0 < amount && Net(amount, s.projects[id].donationFee) == 0 ==>
      r == Err(AmountTooSmall)
    ensures (id < |s.projects| && s.projects[id].isActive && MinDonation <= amount
             && Net(amount, s.projects[id].donationFee) > 0 && allowance < amount) ==> r == Err(AllowanceNotApproved)
    ensures r.Ok? <==> (id < |s.projects| && s.projects[id].isActive && MinDonation <= amount <= allowance
                        && Net(amount, s.projects[id].donationFee) > 0)
    ensures r.Ok? ==>
      var p := s.projects[id];
      var tok := p.exchangeToken;
      var fee := Fee(amount, p.donationFee);
      && |r.value.projects| == |s.projects|
      && Balance(r.value.fees, tok) == Balance(s.fees, tok) + fee
      && Balance(r.value.holdings, tok) == Balance(s.holdings, tok) + amount
      && r.value.projects[id] == Fund(p, amount - fee)
      && Balance(r.value.donations, (donor, id)) == Balance(s.donations, (donor, id)) + amount
      && r.value == UpdateProject(s, id, r.value.projects[id]).(
           fees := r.value.fees, holdings := r.value.holdings, donations := r.value.donations)
    ensures r.Ok? ==> forall t :: t != s.projects[id].exchangeToken ==>
      Balance(r.value.fees, t) == Balance(s.fees, t) && Balance(r.value.holdings, t) == Balance(s.holdings, t)
    ensures r.Ok? ==> forall d :: d != (donor, id) ==> Balance(r.value.donations, d) == Balance(s.donations, d)
  {
    if id >= |s.projects| then Err(InvalidProjectId)
    else if amount == 0 then Err(ZeroAmount)
    else if !s.projects[id].isActive then Err(ProjectNotActive)
    else if amount < MinDonation || Net(amount, s.projects[id].donationFee) == 0 then Err(AmountTooSmall)
    else if allowance < amount then Err(AllowanceNotApproved)
    else
      var p := s.projects[id];
      var tok := p.exchangeToken;
      Ok(UpdateProject(s, id, Fund(p, Net(amount, p.donationFee))).(
        fees := Credit(s.fees, tok, Fee(amount, p.donationFee)),
        holdings := Credit(s.holdings, tok, amount),
        donations := Credit(s.donations, (donor, id), amount)))
  }

  // ----- Vote engine -----

  /** `voteForThreshold(id, vote)` from `voter`. */
  function VoteForThreshold(s: State, voter: Address, id: ProjectId, vote: bool): (r: Result<State>)
    ensures id >= |s.projects| ==> r == Err(InvalidProjectId)
    ensures id < |s.projects| && Balance(s.donations, (voter, id)) == 0 ==> r == Err(NotADonator)
    ensures id < |s.projects| && Balance(s.donations, (voter, id)) > 0 && !s.projects[id].InSession() ==>
      r == Err(NotInVotingSession)
    ensures (id < |s.projects| && Balance(s.donations, (voter, id)) > 0 && s.projects[id].InSession()
             && (voter, id, s.projects[id].currentThreshold) in s.ballots) ==> r == Err(CanOnlyVoteOnce)
    ensures r.Ok? <==> (id < |s.projects| && Balance(s.donations, (voter, id)) > 0 && s.projects[id].InSession()
                        && (voter, id, s.projects[id].currentThreshold) !in s.ballots)
    ensures r.Ok? ==> |r.value.projects| == |s.projects|
    ensures r.Ok? ==>
      var p := s.projects[id];
      var q := r.value.projects[id];
      var v := p.CurrentSession();
      && (voter, id, p.currentThreshold) !in s.ballots
      && r.value.ballots == s.ballots + {(voter, id, p.currentThreshold)}
      && q == p.(thresholds := q.thresholds)
      && SameBudgets(p.thresholds, q.thresholds)
      && q.InSession()
      && q.CurrentSession().positiveVotes == v.positiveVotes + (if vote then 1 else 0)
      && q.CurrentSession().negativeVotes == v.negativeVotes + (if vote then 0 else 1)
      && (forall k :: 0 <= k < |p.thresholds| && k != p.currentThreshold ==> q.thresholds[k] == p.thresholds[k])
      && r.value == UpdateProject(s, id, q).(ballots := r.value.ballots)
  {
    if id >= |s.projects| then Err(InvalidProjectId)
    else if Balance(s.donations, (voter, id)) == 0 then Err(NotADonator)
    else if !s.projects[id].InSession() then Err(NotInVotingSession)
    else if (voter, id, s.projects[id].currentThreshold) in s.ballots then Err(CanOnlyVoteOnce)
    else
      var p := s.projects[id];
      var v := p.CurrentSession();
      var v' := if vote then v.(positiveVotes := v.positiveVotes + 1) else v.(negativeVotes := v.negativeVotes + 1);
      Ok(UpdateProject(s, id, p.(thresholds := WithSession(p.thresholds, p.currentThreshold, v'))).(
        ballots := s.ballots + {(voter, id, p.currentThreshold)}))
  }

  /** Deliberation of the current tranche: the session closes with its tally kept; on a
      pass the tranche index advances, the tranche's budget is released, and the next tranche's
      session opens at once when the funding already covers it. */
  function Deliberate(p: Project): (q: Project)
    requires p.InSession() && p.CurrentSession().Total() > 0
    ensures SameBudgets(p.thresholds, q.thresholds)
    ensures q.thresholds[p.currentThreshold].voteSession == p.CurrentSession().(isVotingInSession := false)
    ensures Passes(p.CurrentSession(), p.requiredVotePercentage) ==>
      && q.currentThreshold == p.currentThreshold + 1
      && q.availableToWithdraw == p.availableToWithdraw + p.thresholds[p.currentThreshold].budget
      && (!q.AllPassed() && Covers(p.currentAmount, p.thresholds, q.currentThreshold) ==>
            q.CurrentSession() == FreshSession)
      && (!q.AllPassed() && !Covers(p.currentAmount, p.thresholds, q.currentThreshold) ==>
            q.CurrentSession() == p.thresholds[q.currentThreshold].voteSession)
    ensures !Passes(p.CurrentSession(), p.requiredVotePercentage) ==>
      q.currentThreshold == p.currentThreshold && q.availableToWithdraw == p.availableToWithdraw && !q.InSession()
    ensures forall k :: 0 <= k < |p.thresholds| && k != p.currentThreshold && k != q.currentThreshold ==>
      q.thresholds[k] == p.thresholds[k]
    ensures q == p.(currentThreshold := q.currentThreshold, availableToWithdraw := q.availableToWithdraw,
                    thresholds := q.thresholds)
  {
    var cur := p.currentThreshold;
    var v := p.CurrentSession();
    var closed := p.(thresholds := WithSession(p.thresholds, cur, v.(isVotingInSession := false)));
    if !Passes(v, p.requiredVotePercentage) then
      closed
    else
      var advanced := closed.(currentThreshold := cur + 1,
                              availableToWithdraw := p.availableToWithdraw + p.thresholds[cur].budget);
      if cur + 1 < |p.thresholds| && Covers(p.currentAmount, p.thresholds, cur + 1) then
        advanced.(thresholds := WithSession(closed.thresholds, cur + 1, FreshSession))
      else
        advanced
  }

  /** `endThresholdVoting(id)`. */
  function EndThresholdVoting(s: State, id: ProjectId): (r: Result<State>)
    ensures id >= |s.projects| ==> r == Err(InvalidProjectId)
    ensures id < |s.projects| && !s.projects[id].InSession() ==> r == Err(NotInVotingSession)
    ensures id < |s.projects| && s.projects[id].InSession() && s.projects[id].CurrentSession().Total() == 0 ==>
      r == Err(CantDeliberateWithoutVotes)
    ensures r.Ok? <==> id < |s.projects| && s.projects[id].InSession() && s.projects[id].CurrentSession().Total() > 0
    ensures r.Ok? ==> r.value == UpdateProject(s, id, Deliberate(s.projects[id]))
  {
    if id >= |s.projects| then Err(InvalidProjectId)
    else if !s.projects[id].InSession() then Err(NotInVotingSession)
    else if s.projects[id].CurrentSession().Total() == 0 then Err(CantDeliberateWithoutVotes)
    else Ok(UpdateProject(s, id, Deliberate(s.projects[id])))
  }

  // ----- Settlement -----

  /** The state after a payout and the amount the token ledger sent out. */
  datatype Payout = Payout(state: State, amount: nat)

  /** `withdrawFunds(id)` from `caller`. */
  function WithdrawFunds(s: State, caller: Address, id: ProjectId): (r: Result<Payout>)
    ensures id >= |s.projects| ==> r == Err(InvalidProjectId)
    ensures id < |s.projects| && caller != s.projects[id].owner ==> r == Err(NotProjectOwner)
    ensures id < |s.projects| && caller == s.projects[id].owner && s.projects[id].availableToWithdraw == 0 ==>
      r == Err(NoFundsToWithdraw)
    ensures r.Ok? ==>
      var p := s.projects[id];
      var tok := p.exchangeToken;
      && caller == p.owner
      && |r.value.state.projects| == |s.projects|
      && r.value.amount == p.availableToWithdraw > 0
      && r.value.state.projects[id] == p.(availableToWithdraw := 0, withdrawn := p.withdrawn + r.value.amount)
      && Balance(r.value.state.holdings, tok) + r.value.amount == Balance(s.holdings, tok)
      && (forall t :: t != tok ==> Balance(r.value.state.holdings, t) == Balance(s.holdings, t))
      && r.value.state == UpdateProject(s, id, r.value.state.projects[id]).(holdings := r.value.state.holdings)
    ensures r.Ok? <==> (id < |s.projects| && caller == s.projects[id].owner && s.projects[id].availableToWithdraw > 0
                        && Balance(s.holdings, s.projects[id].exchangeToken) >= s.projects[id].availableToWithdraw)
    ensures r.Err? ==> r.error in {InvalidProjectId, NotProjectOwner, NoFundsToWithdraw, LedgerTransferFailed}
  {
    if id >= |s.projects| then Err(InvalidProjectId)
    else if caller != s.projects[id].owner then Err(NotProjectOwner)
    else if s.projects[id].availableToWithdraw == 0 then Err(NoFundsToWithdraw)
    else
      var p := s.projects[id];
      var amount := p.availableToWithdraw;
      if Balance(s.holdings, p.exchangeToken) < amount then Err(LedgerTransferFailed)
      else
        Ok(Payout(UpdateProject(s, id, p.(availableToWithdraw := 0, withdrawn := p.withdrawn + amount)).(
             holdings := Debit(s.holdings, p.exchangeToken, amount)), amount))
  }

  /** `withdrawFees(token)` by the fee withdrawer. */
  function WithdrawFees(s: State, token: Address): (r: Result<Payout>)
    ensures token == NullAddress ==> r == Err(ZeroAddress)
    ensures token != NullAddress && Balance(s.fees, token) == 0 ==> r == Err(NoFeesToWithdraw)
    ensures r.Ok? ==>
      && r.value.amount == Balance(s.fees, token) > 0
      && Balance(r.value.state.fees, token) == 0
      && Balance(r.value.state.holdings, token) + r.value.amount == Balance(s.holdings, token)
      && (forall t :: t != token ==>
            Balance(r.value.state.fees, t) == Balance(s.fees, t) && Balance(r.value.state.holdings, t) == Balance(s.holdings, t))
      && r.value.state == s.(fees := r.value.state.fees, holdings := r.value.state.holdings)
    ensures r.Ok? <==> (token != NullAddress && Balance(s.fees, token) > 0
                        && Balance(s.holdings, token) >= Balance(s.fees, token))
    ensures r.Err? ==> r.error in {ZeroAddress, NoFeesToWithdraw, LedgerTransferFailed}
  {
    if token == NullAddress then Err(ZeroAddress)
    else if Balance(s.fees, token) == 0 then Err(NoFeesToWithdraw)
    else
      var amount := Balance(s.fees, token);
      if Balance(s.holdings, token) < amount then Err(LedgerTransferFailed)
      else Ok(Payout(s.(fees := s.fees[token := 0], holdings := Debit(s.holdings, token, amount)), amount))
  }

  /** `withdrawFundsToOtherProject(from, to)`: the whole funding of `from` moves to `to`. */
  function WithdrawFundsToOtherProject(s: State, from: ProjectId, to: ProjectId): (r: Result<State>)
    ensures from >= |s.projects| || to >= |s.projects| ==> r == Err(InvalidProjectId)
    ensures from < |s.projects| && to < |s.projects| && from == to ==> r == Err(CantWithdrawToSameProject)
    ensures (from < |s.projects| && to < |s.projects| && from != to
             && s.projects[from].exchangeToken != s.projects[to].exchangeToken) ==> r == Err(DifferentExchangeToken)
    ensures (from < |s.projects| && to < |s.projects| && from != to
             && s.projects[from].exchangeToken == s.projects[to].exchangeToken && !s.projects[to].isActive) ==>
      r == Err(ProjectNotActive)
    ensures (from < |s.projects| && to < |s.projects| && from != to
             && s.projects[from].exchangeToken == s.projects[to].exchangeToken && s.projects[to].isActive
             && s.projects[from].currentAmount == 0) ==> r == Err(NoFundsToWithdraw)
    ensures r.Ok? <==> (from < |s.projects| && to < |s.projects| && from != to
                        && s.projects[from].exchangeToken == s.projects[to].exchangeToken && s.projects[to].isActive
                        && s.projects[from].currentAmount > 0)
    ensures r.Err? ==> r.error in {InvalidProjectId, CantWithdrawToSameProject, DifferentExchangeToken,
                                   ProjectNotActive, NoFundsToWithdraw}
    ensures r.Ok? ==>
      var a := s.projects[from];
      var b := s.projects[to];
      && from != to && a.exchangeToken == b.exchangeToken && b.isActive && a.currentAmount > 0
      && |r.value.projects| == |s.projects|
      && r.value.projects[from] == a.(currentAmount := 0)
      && r.value.projects[to] == b.(currentAmount := b.currentAmount + a.currentAmount)
      && (forall j :: 0 <= j < |s.projects| && j != from && j != to ==> r.value.projects[j] == s.projects[j])
      && r.value == s.(projects := r.value.projects)
  {
    if from >= |s.projects| || to >= |s.projects| then Err(InvalidProjectId)
    else if from == to then Err(CantWithdrawToSameProject)
    else if s.projects[from].exchangeToken != s.projects[to].exchangeToken then Err(DifferentExchangeToken)
    else if !s.projects[to].isActive then Err(ProjectNotActive)
    else if s.projects[from].currentAmount == 0 then Err(NoFundsToWithdraw)
    else
      var a := s.projects[from];
      var b := s.projects[to];
      Ok(s.(projects := s.projects[from := a.(currentAmount := 0)][to := b.(currentAmount := b.currentAmount + a.currentAmount)]))
  }

  // ----- Getters -----
  // Each getter only reads a field; `Properties.AddTokenThenSupported`,
  // `Properties.NullTokenNeverSupported`, `Properties.CreateThenRead` and
  // `Properties.SettersReadBack` tie what they return to the calls that wrote it.

  function GetProject(s: State, id: ProjectId): (r: Result<Project>)
    ensures id >= |s.projects| <==> r == Err(InvalidProjectId)
    ensures id < |s.projects| ==> r == Ok(s.projects[id])
  {
    if id >= |s.projects| then Err(InvalidProjectId) else Ok(s.projects[id])
  }

  function GetProjectThresholds(s: State, id: ProjectId, t: nat): (r: Result<Threshold>)
    ensures id >= |s.projects| ==> r == Err(InvalidProjectId)
    ensures id < |s.projects| && t >= s.projects[id].NbOfThresholds() ==> r == Err(InvalidThresholdId)
    ensures id < |s.projects| && t < s.projects[id].NbOfThresholds() ==> r == Ok(s.projects[id].thresholds[t])
  {
    if id >= |s.projects| then Err(InvalidProjectId)
    else if t >= s.projects[id].NbOfThresholds() then Err(InvalidThresholdId)
    else Ok(s.projects[id].thresholds[t])
  }

  /** Whether `voter` has cast a ballot on tranche `t` of project `id`; true for either choice. */
  function GetThresholdVoteFromAddress(s: State, voter: Address, id: ProjectId, t: nat): (r: Result<bool>)
    ensures id >= |s.projects| ==> r == Err(InvalidProjectId)
    ensures id < |s.projects| && t >= s.projects[id].NbOfThresholds() ==> r == Err(InvalidThresholdId)
    ensures id < |s.projects| && t < s.projects[id].NbOfThresholds() ==> r.Ok? && (r.value <==> (voter, id, t) in s.ballots)
  {
    if id >= |s.projects| then Err(InvalidProjectId)
    else if t >= s.projects[id].NbOfThresholds() then Err(InvalidThresholdId)
    else Ok((voter, id, t) in s.ballots)
  }

  function GetUserDonations(s: State, donor: Address, id: ProjectId): (r: Result<nat>)
    ensures id >= |s.projects| <==> r == Err(InvalidProjectId)
    ensures id < |s.projects| ==> r == Ok(Balance(s.donations, (donor, id)))
  {
    if id >= |s.projects| then Err(InvalidProjectId) else Ok(Balance(s.donations, (donor, id)))
  }

  function IsDonator(s: State, user: Address, id: ProjectId): (r: Result<bool>)
    ensures id >= |s.projects| <==> r == Err(InvalidProjectId)
    ensures id < |s.projects| ==> r.Ok? && (r.value <==> Balance(s.donations, (user, id)) > 0)
  {
    if id >= |s.projects| then Err(InvalidProjectId) else Ok(Balance(s.donations, (user, id)) > 0)
  }

  /** The token's fee pool; a token that never received a fee reads 0. */
  function GetFeesAvailableToWithdraw(s: State, token: Address): (r: nat)
    ensures token !in s.fees ==> r == 0
    ensures token in s.fees ==> r == s.fees[token]
  {
    Balance(s.fees, token)
  }

  // ----- Calls and runs -----

  /** One call to the contract's public surface, with its caller where it matters. */
  datatype Call =
    | AddToken(token: Address)
    | Create(data: ProjectData, ths: seq<Threshold>)
    | Donate(donor: Address, id: ProjectId, amount: nat, allowance: nat)
    | Vote(voter: Address, id: ProjectId, choice: bool)
    | EndVoting(id: ProjectId)
    | WithdrawOwnerFunds(caller: Address, id: ProjectId)
    | WithdrawProtocolFees(token: Address)
    | MoveFunds(from: ProjectId, to: ProjectId)
    | SetFee(id: ProjectId, fee: nat)
    | SetStatus(id: ProjectId, active: bool)
    | SetCooldown(id: ProjectId, cooldown: nat)

  function StateOf(r: Result<Payout>): Result<State>
  {
    match r
    case Ok(po) => Ok(po.state)
    case Err(e) => Err(e)
  }

  function Step(s: State, c: Call): Result<State>
  {
    match c
    case AddToken(token) => AddNewSupportedToken(s, token)
    case Create(data, ths) => CreateProject(s, data, ths)
    case Donate(donor, id, amount, allowance) => DonateToProject(s, donor, id, amount, allowance)
    case Vote(voter, id, choice) => VoteForThreshold(s, voter, id, choice)
    case EndVoting(id) => EndThresholdVoting(s, id)
    case WithdrawOwnerFunds(caller, id) => StateOf(WithdrawFunds(s, caller, id))
    case WithdrawProtocolFees(token) => StateOf(WithdrawFees(s, token))
    case MoveFunds(from, to) => WithdrawFundsToOtherProject(s, from, to)
    case SetFee(id, fee) => SetDonationFee(s, id, fee)
    case SetStatus(id, active) => UpdateProjectStatus(s, id, active)
    case SetCooldown(id, cooldown) => UpdateProjectVoteCooldown(s, id, cooldown)
  }

  /** A reverted call leaves the state as it was. */
  function Settle(s: State, c: Call): State
  {
    match Step(s, c)
    case Ok(s') => s'
    case Err(_) => s
  }

  /** The state after a sequence of calls, each one all-or-nothing. */
  function Run(s: State, calls: seq<Call>): State
    decreases |calls|
  {
    if |calls| == 0 then s else Run(Settle(s, calls[0]), calls[1..])
  }
}
