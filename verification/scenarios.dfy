/** Concrete replays of the contract's test fixtures, computed by the model. The test
    accounts become small addresses; every donation is made with an allowance that covers it
    unless the replay is about the allowance. */
module Scenarios {
  import opened Types
  import opened Thresholds
  import opened Crowdfunding
  import opened Accounting

  const Usdc: Address := 1
  const Owner: Address := 10
  const Addr1: Address := 11
  const Addr2: Address := 12

  /** The three tranches 50000, 100000 and 150000 of the default project. */
  function Tranches(): seq<Threshold>
  {
    [Threshold(50000, ClosedSession), Threshold(100000, ClosedSession), Threshold(150000, ClosedSession)]
  }

  /** The default project: goal 300000, 50% required, cooldown 1, no fee. */
  function ProjectInfo(): ProjectData
  {
    ProjectData(Owner, Usdc, 300000, 5000, 1, 0)
  }

  /** The default project as `createProject` stores it. */
  function Default(): Project
  {
    Project(Owner, Usdc, 300000, 0, 0, 0, 5000, 0, 1, true, Tranches(), 0)
  }

  /** The token registered, nothing created. */
  function TokenAdded(): State
  {
    State({Usdc}, [], map[], {}, map[], map[])
  }

  /** The token registered and the default project created. */
  function Deployed(): State
  {
    TokenAdded().(projects := [Default()])
  }

  /** `Deployed` plus a donation of 20000 by `Owner`: below the first tranche. */
  function Donated(): State
  {
    State({Usdc}, [Default().(currentAmount := 20000)], map[(Owner, 0) := 20000], {}, map[Usdc := 0], map[Usdc := 20000])
  }

  /** `Deployed` plus a donation of 100000 by `Owner`: the first tranche is in session. */
  function DonatedMax(): State
  {
    State({Usdc}, [Default().(currentAmount := 100000, thresholds := Tranches()[0 := Threshold(50000, FreshSession)])],
          map[(Owner, 0) := 100000], {}, map[Usdc := 0], map[Usdc := 100000])
  }

  /** The running sums of the default tranches. */
  lemma FirstTrancheSums()
    ensures CumulativeBudget(Tranches(), 1) == 50000
    ensures CumulativeBudget(Tranches(), 2) == 150000
    ensures CumulativeBudget(Tranches(), 3) == 300000
  {
    assert CumulativeBudget(Tranches(), 0) == 0;
  }

  lemma TokenAddedReached()
    ensures AddNewSupportedToken(Init(), Usdc) == Ok(TokenAdded())
  {
    assert {} + {Usdc} == {Usdc};
  }

  lemma DeployedReached()
    ensures CreateProject(TokenAdded(), ProjectInfo(), Tranches()) == Ok(Deployed())
  {
    assert Closed(Tranches()) == Tranches();
    assert [] + [NewProject(ProjectInfo(), Tranches())] == [Default()];
  }

  /** A creation request that passes tranche 1 already in session with seven yes votes is
      accepted, and the tranche is stored closed with an empty tally. */
  lemma PreOpenedSessionIsClosed()
    ensures var ths := [Threshold(50000, ClosedSession), Threshold(100000, VoteSession(true, 7, 0))];
      && CreateProject(TokenAdded(), ProjectInfo(), ths).Ok?
      && GetProjectThresholds(CreateProject(TokenAdded(), ProjectInfo(), ths).value, 0, 1)
         == Ok(Threshold(100000, ClosedSession))
  {
  }

  /** An accepted donation, spelled out on a symbolic state. */
  lemma DonateAccepted(s: State, donor: Address, id: ProjectId, amount: nat, allowance: nat)
    requires id < |s.projects| && s.projects[id].isActive
    requires MinDonation <= amount <= allowance && Net(amount, s.projects[id].donationFee) > 0
    ensures var p := s.projects[id];
      var tok := p.exchangeToken;
      DonateToProject(s, donor, id, amount, allowance)
      == Ok(UpdateProject(s, id, Fund(p, Net(amount, p.donationFee))).(
              fees := Credit(s.fees, tok, Fee(amount, p.donationFee)),
              holdings := Credit(s.holdings, tok, amount),
              donations := Credit(s.donations, (donor, id), amount)))
  {
  }

  /** An accepted donation to a project without fee, spelled out. */
  lemma DonateWithoutFee(s: State, donor: Address, id: ProjectId, amount: nat, allowance: nat)
    requires id < |s.projects| && s.projects[id].isActive && s.projects[id].donationFee == 0
    requires MinDonation <= amount <= allowance
    ensures var tok := s.projects[id].exchangeToken;
      DonateToProject(s, donor, id, amount, allowance)
      == Ok(UpdateProject(s, id, Fund(s.projects[id], amount)).(
              fees := Credit(s.fees, tok, 0),
              holdings := Credit(s.holdings, tok, amount),
              donations := Credit(s.donations, (donor, id), amount)))
  {
    DonateAccepted(s, donor, id, amount, allowance);
  }

  /** A donation of `amount` by `Owner` to the fresh default project, with the funded record `q`. */
  lemma FirstDonationState(amount: nat, q: Project)
    requires Fund(Default(), amount) == q
    ensures UpdateProject(Deployed(), 0, q).(
              fees := Credit(Deployed().fees, Usdc, 0),
              holdings := Credit(Deployed().holdings, Usdc, amount),
              donations := Credit(Deployed().donations, (Owner, 0), amount))
            == State({Usdc}, [q], map[(Owner, 0) := amount], {}, map[Usdc := 0], map[Usdc := amount])
  {
    assert [Default()][0 := q] == [q];
    assert Credit(map[], Usdc, 0) == map[Usdc := 0];
    assert Credit(map[], Usdc, amount) == map[Usdc := amount];
    assert Credit(map[], (Owner, 0), amount) == map[(Owner, 0) := amount];
  }

  lemma DonatedReached()
    ensures DonateToProject(Deployed(), Owner, 0, 20000, 100000) == Ok(Donated())
  {
    FirstTrancheSums();
    var q := Default().(currentAmount := 20000);
    assert Fund(Default(), 20000) == q;
    DonateWithoutFee(Deployed(), Owner, 0, 20000, 100000);
    FirstDonationState(20000, q);
  }

  lemma DonatedMaxReached()
    ensures DonateToProject(Deployed(), Owner, 0, 100000, 100000) == Ok(DonatedMax())
  {
    FirstTrancheSums();
    var q := Default().(currentAmount := 100000, thresholds := Tranches()[0 := Threshold(50000, FreshSession)]);
    assert Fund(Default(), 100000) == q;
    DonateWithoutFee(Deployed(), Owner, 0, 100000, 100000);
    FirstDonationState(100000, q);
  }

  /** `DonatedMax` after `Owner` votes `choice` on the first tranche. */
  function Voted(choice: bool): State
  {
    var v := if choice then VoteSession(true, 1, 0) else VoteSession(true, 0, 1);
    DonatedMax().(projects := [DonatedMax().projects[0].(thresholds := Tranches()[0 := Threshold(50000, v)])],
                  ballots := {(Owner, 0, 0)})
  }

  lemma VotedReached(choice: bool)
    ensures VoteForThreshold(DonatedMax(), Owner, 0, choice) == Ok(Voted(choice))
  {
    var p := DonatedMax().projects[0];
    var v := if choice then VoteSession(true, 1, 0) else VoteSession(true, 0, 1);
    var q := p.(thresholds := Tranches()[0 := Threshold(50000, v)]);
    assert WithSession(p.thresholds, 0, v) == q.thresholds;
    assert [p][0 := q] == [q];
    assert {} + {(Owner, 0, 0)} == {(Owner, 0, 0)};
  }

  lemma DeployedReadBack()
    ensures IsTokenSupported(Deployed(), Usdc)
    ensures !IsTokenSupported(Deployed(), Owner) && !IsTokenSupported(Deployed(), NullAddress)
    ensures AddNewSupportedToken(Init(), NullAddress) == Err(ZeroAddress)
    ensures GetProject(Deployed(), 0) == Ok(Default())
    ensures Default().currentAmount == 0 && Default().currentThreshold == 0 && Default().NbOfThresholds() == 3
    ensures GetProjectThresholds(Deployed(), 0, 0) == Ok(Threshold(50000, ClosedSession))
    ensures GetProjectThresholds(Deployed(), 0, 2) == Ok(Threshold(150000, ClosedSession))
    ensures GetProjectThresholds(Deployed(), 0, 100) == Err(InvalidThresholdId)
    ensures GetProject(Deployed(), 100) == Err(InvalidProjectId)
  {
  }

  lemma CreateProjectRejections()
    ensures CreateProject(Init(), ProjectInfo(), Tranches()) == Err(TokenNotSupported)
    ensures CreateProject(TokenAdded(), ProjectInfo(), []) == Err(ZeroThresholds)
    ensures CreateProject(TokenAdded(), ProjectInfo().(requiredAmount := 0), Tranches()) == Err(ZeroRequiredAmount)
    ensures CreateProject(TokenAdded(), ProjectInfo().(requiredVotePercentage := 10001), Tranches()) == Err(CantGoAbove10000)
    ensures CreateProject(TokenAdded(), ProjectInfo().(donationFee := 10001), Tranches()) == Err(CantGoAbove10000)
    ensures CreateProject(TokenAdded(), ProjectInfo().(owner := NullAddress, donationFee := 1000), Tranches()) == Err(ZeroAddress)
    ensures CreateProject(TokenAdded(), ProjectInfo().(voteCooldown := 0), Tranches()) == Err(ZeroVoteCooldown)
    ensures CreateProject(TokenAdded(), ProjectInfo().(requiredVotePercentage := 0), Tranches()) == Err(ZeroRequiredVotePercentage)
  {
  }

  lemma DonationRejections()
    ensures DonateToProject(TokenAdded(), Owner, 0, 10, 10) == Err(InvalidProjectId)
    ensures DonateToProject(Deployed(), Owner, 0, 0, 100000) == Err(ZeroAmount)
    ensures DonateToProject(UpdateProjectStatus(Deployed(), 0, false).value, Owner, 0, 100, 0) == Err(ProjectNotActive)
    ensures DonateToProject(Deployed(), Owner, 0, 5000, 0) == Err(AmountTooSmall)
    ensures DonateToProject(Deployed(), Owner, 0, 20000, 0) == Err(AllowanceNotApproved)
  {
  }

  /** A donation of 20000 is recorded but opens no session; the escrow holds it. */
  lemma SmallDonationKeepsSessionClosed()
    ensures GetUserDonations(Donated(), Owner, 0) == Ok(20000)
    ensures GetUserDonations(Donated(), Owner, 100) == Err(InvalidProjectId)
    ensures IsDonator(Donated(), Owner, 0) == Ok(true)
    ensures IsDonator(Donated(), Owner, 100) == Err(InvalidProjectId)
    ensures Balance(Donated().holdings, Usdc) == 20000
    ensures GetProject(Donated(), 0).value.currentAmount == 20000
    ensures GetProjectThresholds(Donated(), 0, 0) == Ok(Threshold(50000, ClosedSession))
    ensures VoteForThreshold(Donated(), Owner, 0, true) == Err(NotInVotingSession)
    ensures VoteForThreshold(Donated(), Owner, 5000, true) == Err(InvalidProjectId)
    ensures EndThresholdVoting(Donated(), 0) == Err(NotInVotingSession)
    ensures WithdrawFunds(Donated(), Owner, 0) == Err(NoFundsToWithdraw)
    ensures WithdrawFunds(Donated(), Owner, 100) == Err(InvalidProjectId)
    ensures WithdrawFunds(Donated(), Addr1, 0) == Err(NotProjectOwner)
    ensures GetThresholdVoteFromAddress(Donated(), Owner, 100, 0) == Err(InvalidProjectId)
    ensures GetThresholdVoteFromAddress(Donated(), Owner, 0, 100) == Err(InvalidThresholdId)
    ensures GetProjectThresholds(Donated(), 100, 0) == Err(InvalidProjectId)
  {
  }

  /** A further 100000 brings the funding to 120000, which covers the first tranche. */
  lemma CoveringDonationOpensSession()
    ensures DonateToProject(Donated(), Owner, 0, 100000, 100000).Ok?
    ensures DonateToProject(Donated(), Owner, 0, 100000, 100000).value.projects[0].InSession()
    ensures DonateToProject(Donated(), Owner, 0, 100000, 100000).value.projects[0].CurrentSession() == FreshSession
  {
  }

  /** On an open session only donors may vote, and a tally is needed to deliberate. */
  lemma OpenSessionGuards()
    ensures DonatedMax().projects[0].InSession()
    ensures VoteForThreshold(DonatedMax(), Addr1, 0, true) == Err(NotADonator)
    ensures EndThresholdVoting(DonatedMax(), 0) == Err(CantDeliberateWithoutVotes)
    ensures EndThresholdVoting(DonatedMax(), 5000) == Err(InvalidProjectId)
  {
  }

  /** Either choice is counted and recorded as cast; the voter cannot vote again. */
  lemma BallotRecorded()
    ensures GetProjectThresholds(Voted(true), 0, 0) == Ok(Threshold(50000, VoteSession(true, 1, 0)))
    ensures GetProjectThresholds(Voted(false), 0, 0) == Ok(Threshold(50000, VoteSession(true, 0, 1)))
    ensures GetThresholdVoteFromAddress(Voted(true), Owner, 0, 0) == Ok(true)
    ensures GetThresholdVoteFromAddress(Voted(false), Owner, 0, 0) == Ok(true)
    ensures VoteForThreshold(Voted(true), Owner, 0, false) == Err(CanOnlyVoteOnce)
  {
  }

  /** 1-0 passes: the first tranche closes, the tranche index moves to 1 and 50000 is released;
      100000 does not cover the second tranche, so no new session opens. */
  lemma DeliberatePositive()
    ensures EndThresholdVoting(Voted(true), 0).Ok?
    ensures var p := EndThresholdVoting(Voted(true), 0).value.projects[0];
      && p.currentThreshold == 1
      && p.availableToWithdraw == 50000
      && p.thresholds[0] == Threshold(50000, VoteSession(false, 1, 0))
      && !p.InSession()
  {
    FirstTrancheSums();
    CumulativeBudgetOfSameBudgets(Tranches(), Voted(true).projects[0].thresholds, 2);
    UnanimousPasses(VoteSession(true, 1, 0), 5000);
  }

  /** 0-1 fails: the session closes and nothing moves. */
  lemma DeliberateNegative()
    ensures EndThresholdVoting(Voted(false), 0).Ok?
    ensures var p := EndThresholdVoting(Voted(false), 0).value.projects[0];
      && p.currentThreshold == 0
      && p.availableToWithdraw == 0
      && p.thresholds[0] == Threshold(50000, VoteSession(false, 0, 1))
  {
  }

  /** `DonatedMax` plus 300000 more: 400000 funded, the first session still open. */
  function DonatedMore(): State
  {
    State({Usdc}, [Default().(currentAmount := 400000, thresholds := Tranches()[0 := Threshold(50000, FreshSession)])],
          map[(Owner, 0) := 400000], {}, map[Usdc := 0], map[Usdc := 400000])
  }

  lemma DonatedMoreReached()
    ensures DonateToProject(DonatedMax(), Owner, 0, 300000, 300000) == Ok(DonatedMore())
  {
    var p := DonatedMax().projects[0];
    assert Fund(p, 300000) == DonatedMore().projects[0];
    assert [p][0 := DonatedMore().projects[0]] == DonatedMore().projects;
    assert map[Usdc := 0][Usdc := 0] == map[Usdc := 0];
    assert map[Usdc := 100000][Usdc := 400000] == map[Usdc := 400000];
    assert map[(Owner, 0) := 100000][(Owner, 0) := 400000] == map[(Owner, 0) := 400000];
  }

  /** With 400000 funded, passing the first tranche opens the second one's session at once. */
  lemma DeliberatePositiveCascades()
    ensures VoteForThreshold(DonatedMore(), Owner, 0, true).Ok?
    ensures EndThresholdVoting(VoteForThreshold(DonatedMore(), Owner, 0, true).value, 0).Ok?
    ensures var p := EndThresholdVoting(VoteForThreshold(DonatedMore(), Owner, 0, true).value, 0).value.projects[0];
      && p.currentThreshold == 1
      && p.availableToWithdraw == 50000
      && p.thresholds[0] == Threshold(50000, VoteSession(false, 1, 0))
      && p.InSession()
      && p.CurrentSession() == FreshSession
  {
    var q := DonatedMore().projects[0];
    var v := q.(thresholds := Tranches()[0 := Threshold(50000, VoteSession(true, 1, 0))]);
    assert WithSession(q.thresholds, 0, VoteSession(true, 1, 0)) == v.thresholds;
    assert VoteForThreshold(DonatedMore(), Owner, 0, true).value.projects[0] == v;
    FirstTrancheSums();
    CumulativeBudgetOfSameBudgets(Tranches(), v.thresholds, 2);
    UnanimousPasses(VoteSession(true, 1, 0), 5000);
  }

  /** Three donors of 100000 each: `Owner`, `Addr1` and `Addr2`. */
  function TieOpen(): State
  {
    State({Usdc}, [Default().(currentAmount := 300000, thresholds := Tranches()[0 := Threshold(50000, FreshSession)])],
          map[(Owner, 0) := 100000, (Addr1, 0) := 100000, (Addr2, 0) := 100000], {},
          map[Usdc := 0], map[Usdc := 300000])
  }

  /** `TieOpen` after `Owner` votes yes and `Addr1` no. */
  function TieVoted(): State
  {
    TieOpen().(projects := [TieOpen().projects[0].(thresholds := Tranches()[0 := Threshold(50000, VoteSession(true, 1, 1))])],
               ballots := {(Owner, 0, 0), (Addr1, 0, 0)})
  }

  /** `DonatedMax` plus a donation of 100000 by `Addr1`. */
  function TieHalf(): State
  {
    State({Usdc}, [DonatedMax().projects[0].(currentAmount := 200000)],
          map[(Owner, 0) := 100000, (Addr1, 0) := 100000], {}, map[Usdc := 0], map[Usdc := 200000])
  }

  /** Funding a project whose current tranche is already in session only adds to its funding. */
  lemma FundWhileInSession(p: Project, net: nat)
    requires !p.AllPassed() && p.InSession()
    ensures Fund(p, net) == p.(currentAmount := p.currentAmount + net)
  {
  }

  /** A fee-free donation to a project whose current tranche is in session, spelled out. */
  lemma DonateWhileInSession(s: State, donor: Address, id: ProjectId, amount: nat, allowance: nat)
    requires id < |s.projects| && s.projects[id].isActive && s.projects[id].donationFee == 0
    requires !s.projects[id].AllPassed() && s.projects[id].InSession()
    requires MinDonation <= amount <= allowance
    ensures var p := s.projects[id];
      var tok := p.exchangeToken;
      DonateToProject(s, donor, id, amount, allowance)
      == Ok(s.(projects := s.projects[id := p.(currentAmount := p.currentAmount + amount)],
               fees := Credit(s.fees, tok, 0),
               holdings := Credit(s.holdings, tok, amount),
               donations := Credit(s.donations, (donor, id), amount)))
  {
    FundWhileInSession(s.projects[id], amount);
    DonateWithoutFee(s, donor, id, amount, allowance);
  }

  lemma TieHalfReached()
    ensures DonateToProject(DonatedMax(), Addr1, 0, 100000, 100000) == Ok(TieHalf())
  {
    var s := DonatedMax();
    var p := s.projects[0];
    assert !p.AllPassed() && p.InSession();
    DonateWhileInSession(s, Addr1, 0, 100000, 100000);
    var t := s.(projects := s.projects[0 := p.(currentAmount := 200000)],
                fees := Credit(s.fees, Usdc, 0),
                holdings := Credit(s.holdings, Usdc, 100000),
                donations := Credit(s.donations, (Addr1, 0), 100000));
    assert t.projects == TieHalf().projects;
    assert t.fees == TieHalf().fees;
    assert t.holdings == TieHalf().holdings;
    assert t.donations == TieHalf().donations;
  }

  lemma TieOpenReached()
    ensures DonateToProject(TieHalf(), Addr2, 0, 100000, 100000) == Ok(TieOpen())
  {
    var s := TieHalf();
    var p := s.projects[0];
    assert !p.AllPassed() && p.InSession();
    DonateWhileInSession(s, Addr2, 0, 100000, 100000);
    var t := s.(projects := s.projects[0 := p.(currentAmount := 300000)],
                fees := Credit(s.fees, Usdc, 0),
                holdings := Credit(s.holdings, Usdc, 100000),
                donations := Credit(s.donations, (Addr2, 0), 100000));
    assert t.projects == TieOpen().projects;
    assert t.fees == TieOpen().fees;
    assert t.holdings == TieOpen().holdings;
    assert t.donations == TieOpen().donations;
  }

  lemma TieVotedReached()
    ensures VoteForThreshold(TieOpen(), Owner, 0, true).Ok?
    ensures VoteForThreshold(VoteForThreshold(TieOpen(), Owner, 0, true).value, Addr1, 0, false) == Ok(TieVoted())
  {
    var p := TieOpen().projects[0];
    var p1 := p.(thresholds := Tranches()[0 := Threshold(50000, VoteSession(true, 1, 0))]);
    assert WithSession(p.thresholds, 0, VoteSession(true, 1, 0)) == p1.thresholds;
    assert [p][0 := p1] == [p1];
    assert {} + {(Owner, 0, 0)} == {(Owner, 0, 0)};
    var s1 := TieOpen().(projects := [p1], ballots := {(Owner, 0, 0)});
    assert VoteForThreshold(TieOpen(), Owner, 0, true) == Ok(s1);
    var p2 := TieVoted().projects[0];
    assert WithSession(p1.thresholds, 0, VoteSession(true, 1, 1)) == p2.thresholds;
    assert [p1][0 := p2] == [p2];
    assert {(Owner, 0, 0)} + {(Addr1, 0, 0)} == {(Owner, 0, 0), (Addr1, 0, 0)};
  }

  /** A 1-1 tie at 50% fails. */
  lemma DeliberateTie()
    ensures EndThresholdVoting(TieVoted(), 0).Ok?
    ensures var p := EndThresholdVoting(TieVoted(), 0).value.projects[0];
      && p.currentThreshold == 0
      && p.availableToWithdraw == 0
      && !p.thresholds[0].voteSession.isVotingInSession
  {
    TieFailsAtHalf(VoteSession(true, 1, 1));
  }

  // ----- The funded project: one tranche of 100000, a 10% fee -----

  function FundTranches(): seq<Threshold>
  {
    [Threshold(100000, ClosedSession)]
  }

  function FundInfo(): ProjectData
  {
    ProjectData(Owner, Usdc, 100000, 5000, 1, 1000)
  }

  function FundProject(): Project
  {
    Project(Owner, Usdc, 100000, 0, 0, 0, 5000, 1000, 1, true, FundTranches(), 0)
  }

  /** After a donation of 200000: 20000 to the fee pool, 180000 funded, session open. */
  function FundDonated(): State
  {
    State({Usdc}, [FundProject().(currentAmount := 180000, thresholds := [Threshold(100000, FreshSession)])],
          map[(Owner, 0) := 200000], {}, map[Usdc := 20000], map[Usdc := 200000])
  }

  /** After the vote passes 1-0: the only tranche is released. */
  function Funded(): State
  {
    FundDonated().(projects := [FundProject().(currentAmount := 180000, availableToWithdraw := 100000, currentThreshold := 1,
                                               thresholds := [Threshold(100000, VoteSession(false, 1, 0))])],
                   ballots := {(Owner, 0, 0)})
  }

  /** `FundDonated` after `Owner` votes yes. */
  function FundVoted(): State
  {
    FundDonated().(projects := [FundDonated().projects[0].(thresholds := [Threshold(100000, VoteSession(true, 1, 0))])],
                   ballots := {(Owner, 0, 0)})
  }

  lemma FundCreated()
    ensures CreateProject(TokenAdded(), FundInfo(), FundTranches()) == Ok(TokenAdded().(projects := [FundProject()]))
  {
    assert Closed(FundTranches()) == FundTranches();
    assert [] + [NewProject(FundInfo(), FundTranches())] == [FundProject()];
  }

  lemma FundDonatedReached()
    ensures DonateToProject(TokenAdded().(projects := [FundProject()]), Owner, 0, 200000, 200000) == Ok(FundDonated())
  {
    var s := TokenAdded().(projects := [FundProject()]);
    assert CumulativeBudget(FundTranches(), 1) == 100000 by {
      assert CumulativeBudget(FundTranches(), 0) == 0;
    }
    assert Fee(200000, 1000) == 20000;
    assert Net(200000, 1000) == 180000;
    var p1 := FundDonated().projects[0];
    assert Fund(FundProject(), 180000) == p1;
    DonateAccepted(s, Owner, 0, 200000, 200000);
    assert [FundProject()][0 := p1] == [p1];
    assert Credit(map[], Usdc, 20000) == map[Usdc := 20000];
    assert Credit(map[], Usdc, 200000) == map[Usdc := 200000];
    assert Credit(map[], (Owner, 0), 200000) == map[(Owner, 0) := 200000];
  }

  lemma FundVotedReached()
    ensures VoteForThreshold(FundDonated(), Owner, 0, true) == Ok(FundVoted())
  {
    var p1 := FundDonated().projects[0];
    var p2 := FundVoted().projects[0];
    assert WithSession(p1.thresholds, 0, VoteSession(true, 1, 0)) == p2.thresholds;
    assert [p1][0 := p2] == [p2];
    assert {} + {(Owner, 0, 0)} == {(Owner, 0, 0)};
  }

  lemma FundReleased()
    ensures EndThresholdVoting(FundVoted(), 0) == Ok(Funded())
  {
    UnanimousPasses(VoteSession(true, 1, 0), 5000);
    var p2 := FundVoted().projects[0];
    var p3 := Funded().projects[0];
    assert Deliberate(p2) == p3;
    assert [p2][0 := p3] == [p3];
  }

  lemma FundedReached()
    ensures CreateProject(TokenAdded(), FundInfo(), FundTranches()) == Ok(TokenAdded().(projects := [FundProject()]))
    ensures DonateToProject(TokenAdded().(projects := [FundProject()]), Owner, 0, 200000, 200000) == Ok(FundDonated())
    ensures VoteForThreshold(FundDonated(), Owner, 0, true) == Ok(FundVoted())
    ensures EndThresholdVoting(FundVoted(), 0) == Ok(Funded())
  {
    FundCreated();
    FundDonatedReached();
    FundVotedReached();
    FundReleased();
  }

  /** The fee pool holds a tenth of the donation; once every tranche has passed, a
      donation of 100000 adds its net 90000 to both the funding and the withdrawable balance. */
  lemma DonationAfterCompletion()
    ensures GetFeesAvailableToWithdraw(FundDonated(), Usdc) == 20000
    ensures Funded().projects[0].AllPassed()
    ensures DonateToProject(Funded(), Owner, 0, 100000, 100000).Ok?
    ensures var p := DonateToProject(Funded(), Owner, 0, 100000, 100000).value.projects[0];
      p.currentAmount == 270000 && p.availableToWithdraw == 190000
  {
  }

  /** Once every tranche has passed, no session is open, so a ballot and a deliberation are
      both refused with `NotInVotingSession`. */
  lemma NoSessionAfterCompletion()
    ensures Funded().projects[0].AllPassed()
    ensures VoteForThreshold(Funded(), Owner, 0, true) == Err(NotInVotingSession)
    ensures EndThresholdVoting(Funded(), 0) == Err(NotInVotingSession)
  {
  }

  /** The owner receives exactly the withdrawable balance; a second call has nothing to pay. */
  lemma WithdrawFundsPaysBalance()
    ensures WithdrawFunds(Funded(), Owner, 0).Ok?
    ensures WithdrawFunds(Funded(), Owner, 0).value.amount == 100000
    ensures WithdrawFunds(Funded(), Owner, 0).value.state.projects[0].availableToWithdraw == 0
    ensures Balance(WithdrawFunds(Funded(), Owner, 0).value.state.holdings, Usdc) == 100000
    ensures WithdrawFunds(WithdrawFunds(Funded(), Owner, 0).value.state, Owner, 0) == Err(NoFundsToWithdraw)
  {
  }

  lemma WithdrawFeesPaysPool()
    ensures WithdrawFees(Funded(), NullAddress) == Err(ZeroAddress)
    ensures WithdrawFees(Funded(), Owner) == Err(NoFeesToWithdraw)
    ensures WithdrawFees(Funded(), Usdc).Ok?
    ensures WithdrawFees(Funded(), Usdc).value.amount == 20000
    ensures GetFeesAvailableToWithdraw(WithdrawFees(Funded(), Usdc).value.state, Usdc) == 0
  {
  }

  lemma SettersOnDonated()
    ensures SetDonationFee(Donated(), 5000, 100) == Err(InvalidProjectId)
    ensures SetDonationFee(Donated(), 0, 25000) == Err(CantGoAbove10000)
    ensures GetProject(SetDonationFee(Funded(), 0, 100).value, 0).value.donationFee == 100
    ensures UpdateProjectStatus(Donated(), 100, false) == Err(InvalidProjectId)
    ensures !UpdateProjectStatus(Donated(), 0, false).value.projects[0].isActive
    ensures UpdateProjectStatus(UpdateProjectStatus(Donated(), 0, false).value, 0, true).value.projects[0].isActive
    ensures UpdateProjectVoteCooldown(Donated(), 100, 0) == Err(InvalidProjectId)
    ensures UpdateProjectVoteCooldown(Donated(), 0, 3600).value.projects[0].voteCooldown == 3600
  {
  }

  // ----- Moving funds between projects -----

  /** `Donated` plus a second default project. */
  function SecondProject(): State
  {
    Donated().(projects := Donated().projects + [Default()])
  }

  /** `Donated` plus a project whose token is the registered address `Owner`. */
  function DifferentToken(): State
  {
    Donated().(supportedTokens := {Usdc, Owner}, projects := Donated().projects + [Default().(exchangeToken := Owner)])
  }

  lemma SecondProjectsReached()
    ensures CreateProject(Donated(), ProjectInfo(), Tranches()) == Ok(SecondProject())
    ensures AddNewSupportedToken(Donated(), Owner).Ok?
    ensures CreateProject(AddNewSupportedToken(Donated(), Owner).value, ProjectInfo().(exchangeToken := Owner), Tranches())
            == Ok(DifferentToken())
  {
    assert Closed(Tranches()) == Tranches();
    assert {Usdc} + {Owner} == {Usdc, Owner};
  }

  lemma MoveFundsRejections()
    ensures WithdrawFundsToOtherProject(Donated(), 100, 0) == Err(InvalidProjectId)
    ensures WithdrawFundsToOtherProject(Donated(), 0, 100) == Err(InvalidProjectId)
    ensures WithdrawFundsToOtherProject(Donated(), 0, 0) == Err(CantWithdrawToSameProject)
    ensures WithdrawFundsToOtherProject(SecondProject(), 1, 0) == Err(NoFundsToWithdraw)
    ensures WithdrawFundsToOtherProject(DifferentToken(), 0, 1) == Err(DifferentExchangeToken)
    ensures WithdrawFundsToOtherProject(UpdateProjectStatus(SecondProject(), 1, false).value, 0, 1) == Err(ProjectNotActive)
  {
  }

  /** The whole funding moves, also out of an inactive project, which stays inactive. */
  lemma MoveFundsMovesEverything()
    ensures WithdrawFundsToOtherProject(SecondProject(), 0, 1).Ok?
    ensures WithdrawFundsToOtherProject(SecondProject(), 0, 1).value.projects[0].currentAmount == 0
    ensures WithdrawFundsToOtherProject(SecondProject(), 0, 1).value.projects[1].currentAmount == 20000
    ensures var s := UpdateProjectStatus(SecondProject(), 0, false).value;
      && WithdrawFundsToOtherProject(s, 0, 1).Ok?
      && WithdrawFundsToOtherProject(s, 0, 1).value.projects[0].currentAmount == 0
      && WithdrawFundsToOtherProject(s, 0, 1).value.projects[1].currentAmount == 20000
      && !WithdrawFundsToOtherProject(s, 0, 1).value.projects[0].isActive
  {
  }
}
