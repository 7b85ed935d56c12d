/** A reachable run after which the escrow owes its project owners more than it holds.
    `withdrawFundsToOtherProject` moves a project's whole funding, including the part whose
    tranche was already released to its owner, and the destination can release the same
    tokens again. Solvency holds on every run without that call (`SolventWithoutTransfers`);
    this run shows the exclusion is needed. */
module DoubleRelease {
  import opened Types
  import opened Thresholds
  import opened Crowdfunding
  import opened Accounting
  import opened Scenarios

  /** A single tranche of 100000. */
  function Single(): seq<Threshold>
  {
    [Threshold(100000, ClosedSession)]
  }

  function LoneInfo(): ProjectData
  {
    ProjectData(Owner, Usdc, 100000, 5000, 1, 0)
  }

  function Lone(): Project
  {
    Project(Owner, Usdc, 100000, 0, 0, 0, 5000, 0, 1, true, Single(), 0)
  }

  /** `Lone` with `amount` funded and the given session on its only tranche. */
  function LoneAt(amount: nat, v: VoteSession): Project
  {
    Lone().(currentAmount := amount, thresholds := [Threshold(100000, v)])
  }

  /** `Lone` with `amount` funded after its only tranche passed 1-0. */
  function LoneReleased(amount: nat): Project
  {
    Lone().(currentAmount := amount, availableToWithdraw := 100000, currentThreshold := 1,
            thresholds := [Threshold(100000, VoteSession(false, 1, 0))])
  }

  /** Two projects on the same token; the fee pool is empty throughout. */
  function Escrow(p0: Project, p1: Project, donations: map<(Address, ProjectId), nat>,
                  ballots: set<(Address, ProjectId, nat)>, held: nat): State
  {
    State({Usdc}, [p0, p1], donations, ballots, map[Usdc := 0], map[Usdc := held])
  }

  /** Call `k` of the run, counting from 0. */
  function CallAt(k: nat): Call
  {
    match k
    case 0 => AddToken(Usdc)
    case 1 => Create(LoneInfo(), Single())
    case 2 => Create(LoneInfo(), Single())
    case 3 => Donate(Owner, 0, 100000, 100000)
    case 4 => Vote(Owner, 0, true)
    case 5 => EndVoting(0)
    case 6 => MoveFunds(0, 1)
    case 7 => Donate(Addr1, 1, 20000, 20000)
    case 8 => Vote(Addr1, 1, true)
    case _ => EndVoting(1)
  }

  /** The calls of the run from call `k` on. */
  function From(k: nat): seq<Call>
    decreases 10 - k
  {
    if k >= 10 then [] else [CallAt(k)] + From(k + 1)
  }

  function Calls(): seq<Call> { From(0) }

  /** The states after calls 3 to 10. */
  function S3(): State { TokenAdded().(projects := [Lone(), Lone()]) }
  function S4(): State { Escrow(LoneAt(100000, FreshSession), Lone(), map[(Owner, 0) := 100000], {}, 100000) }
  function S5(): State
  {
    Escrow(LoneAt(100000, VoteSession(true, 1, 0)), Lone(), map[(Owner, 0) := 100000], {(Owner, 0, 0)}, 100000)
  }
  function S6(): State { Escrow(LoneReleased(100000), Lone(), map[(Owner, 0) := 100000], {(Owner, 0, 0)}, 100000) }
  function S7(): State
  {
    Escrow(LoneReleased(0), Lone().(currentAmount := 100000), map[(Owner, 0) := 100000], {(Owner, 0, 0)}, 100000)
  }
  function S8(): State
  {
    Escrow(LoneReleased(0), LoneAt(120000, FreshSession), map[(Owner, 0) := 100000, (Addr1, 1) := 20000],
           {(Owner, 0, 0)}, 120000)
  }
  function S9(): State
  {
    Escrow(LoneReleased(0), LoneAt(120000, VoteSession(true, 1, 0)), map[(Owner, 0) := 100000, (Addr1, 1) := 20000],
           {(Owner, 0, 0), (Addr1, 1, 0)}, 120000)
  }
  function S10(): State
  {
    Escrow(LoneReleased(0), LoneReleased(120000), map[(Owner, 0) := 100000, (Addr1, 1) := 20000],
           {(Owner, 0, 0), (Addr1, 1, 0)}, 120000)
  }

  lemma SingleSum()
    ensures CumulativeBudget(Single(), 1) == 100000
  {
    assert CumulativeBudget(Single(), 0) == 0;
  }

  lemma CreatedTwice()
    ensures CreateProject(TokenAdded(), LoneInfo(), Single()) == Ok(TokenAdded().(projects := [Lone()]))
    ensures CreateProject(TokenAdded().(projects := [Lone()]), LoneInfo(), Single()) == Ok(S3())
  {
    assert Closed(Single()) == Single();
    assert [] + [Lone()] == [Lone()];
    assert [Lone()] + [Lone()] == [Lone(), Lone()];
  }

  /** A donation that reaches the single budget opens its session. */
  lemma FundLone(x: nat, y: nat)
    requires x + y >= 100000
    ensures Fund(Lone().(currentAmount := x), y) == LoneAt(x + y, FreshSession)
  {
    SingleSum();
  }

  /** A 1-0 vote on the single tranche releases it. */
  lemma LonePasses(amount: nat)
    ensures Deliberate(LoneAt(amount, VoteSession(true, 1, 0))) == LoneReleased(amount)
  {
    UnanimousPasses(VoteSession(true, 1, 0), 5000);
  }

  /** A deliberation on an open session with ballots, spelled out. */
  lemma EndVotingAccepts(s: State, id: ProjectId, q: Project)
    requires id < |s.projects| && s.projects[id].InSession() && s.projects[id].CurrentSession().Total() > 0
    requires Deliberate(s.projects[id]) == q
    ensures EndThresholdVoting(s, id) == Ok(UpdateProject(s, id, q))
  {
  }

  lemma FirstDonationValue()
    ensures UpdateProject(S3(), 0, Fund(Lone(), 100000)).(
              fees := Credit(S3().fees, Usdc, 0),
              holdings := Credit(S3().holdings, Usdc, 100000),
              donations := Credit(S3().donations, (Owner, 0), 100000)) == S4()
  {
    assert Lone().(currentAmount := 0) == Lone();
    FundLone(0, 100000);
    var q := LoneAt(100000, FreshSession);
    assert S3().projects[0 := q] == [q, Lone()] == S4().projects;
    assert Credit(S3().fees, Usdc, 0) == S4().fees;
    assert Credit(S3().holdings, Usdc, 100000) == S4().holdings;
    assert Credit(S3().donations, (Owner, 0), 100000) == S4().donations;
  }

  lemma FirstDonation()
    ensures DonateToProject(S3(), Owner, 0, 100000, 100000) == Ok(S4())
  {
    DonateWithoutFee(S3(), Owner, 0, 100000, 100000);
    FirstDonationValue();
  }

  lemma FirstVote()
    ensures VoteForThreshold(S4(), Owner, 0, true) == Ok(S5())
  {
    var p := LoneAt(100000, FreshSession);
    var q := LoneAt(100000, VoteSession(true, 1, 0));
    assert WithSession(p.thresholds, 0, VoteSession(true, 1, 0)) == q.thresholds;
    assert [p, Lone()][0 := q] == [q, Lone()];
    assert {} + {(Owner, 0, 0)} == {(Owner, 0, 0)};
  }

  lemma FirstRelease()
    ensures EndThresholdVoting(S5(), 0) == Ok(S6())
  {
    var q := LoneAt(100000, VoteSession(true, 1, 0));
    LonePasses(100000);
    EndVotingAccepts(S5(), 0, LoneReleased(100000));
    assert [q, Lone()][0 := LoneReleased(100000)] == [LoneReleased(100000), Lone()];
  }

  lemma Moved()
    ensures WithdrawFundsToOtherProject(S6(), 0, 1) == Ok(S7())
  {
    var ps := [LoneReleased(100000), Lone()];
    assert ps[0 := LoneReleased(0)][1 := Lone().(currentAmount := 100000)] == S7().projects;
  }

  lemma SecondDonationValue()
    ensures UpdateProject(S7(), 1, Fund(S7().projects[1], 20000)).(
              fees := Credit(S7().fees, Usdc, 0),
              holdings := Credit(S7().holdings, Usdc, 20000),
              donations := Credit(S7().donations, (Addr1, 1), 20000)) == S8()
  {
    var p := Lone().(currentAmount := 100000);
    FundLone(100000, 20000);
    assert [LoneReleased(0), p][1 := LoneAt(120000, FreshSession)] == S8().projects;
    assert map[Usdc := 0][Usdc := 0] == map[Usdc := 0];
    assert map[Usdc := 100000][Usdc := 120000] == map[Usdc := 120000];
    assert Balance(S7().donations, (Addr1, 1)) == 0;
    assert Credit(S7().donations, (Addr1, 1), 20000) == S8().donations;
  }

  lemma SecondDonation()
    ensures DonateToProject(S7(), Addr1, 1, 20000, 20000) == Ok(S8())
  {
    DonateWithoutFee(S7(), Addr1, 1, 20000, 20000);
    SecondDonationValue();
  }

  lemma SecondVote()
    ensures VoteForThreshold(S8(), Addr1, 1, true) == Ok(S9())
  {
    var p := LoneAt(120000, FreshSession);
    var q := LoneAt(120000, VoteSession(true, 1, 0));
    assert WithSession(p.thresholds, 0, VoteSession(true, 1, 0)) == q.thresholds;
    assert [LoneReleased(0), p][1 := q] == S9().projects;
    assert {(Owner, 0, 0)} + {(Addr1, 1, 0)} == {(Owner, 0, 0), (Addr1, 1, 0)};
  }

  lemma SecondRelease()
    ensures EndThresholdVoting(S9(), 1) == Ok(S10())
  {
    var q := LoneAt(120000, VoteSession(true, 1, 0));
    LonePasses(120000);
    EndVotingAccepts(S9(), 1, LoneReleased(120000));
    assert [LoneReleased(0), q][1 := LoneReleased(120000)] == S10().projects;
  }

  lemma RunFrom(s: State, k: nat)
    requires k < 10
    ensures Run(s, From(k)) == Run(Settle(s, CallAt(k)), From(k + 1))
  {
    assert From(k)[0] == CallAt(k);
    assert From(k)[1..] == From(k + 1);
  }

  /** A call that succeeds settles to the state it returns. */
  lemma SettleDonate(s: State, donor: Address, id: ProjectId, amount: nat, allowance: nat, t: State)
    requires DonateToProject(s, donor, id, amount, allowance) == Ok(t)
    ensures Settle(s, Donate(donor, id, amount, allowance)) == t
  {
  }

  lemma SettleVote(s: State, voter: Address, id: ProjectId, choice: bool, t: State)
    requires VoteForThreshold(s, voter, id, choice) == Ok(t)
    ensures Settle(s, Vote(voter, id, choice)) == t
  {
  }

  lemma SettleEndVoting(s: State, id: ProjectId, t: State)
    requires EndThresholdVoting(s, id) == Ok(t)
    ensures Settle(s, EndVoting(id)) == t
  {
  }

  lemma SettleMoveFunds(s: State, from: ProjectId, to: ProjectId, t: State)
    requires WithdrawFundsToOtherProject(s, from, to) == Ok(t)
    ensures Settle(s, MoveFunds(from, to)) == t
  {
  }

  lemma Step0()
    ensures Settle(Init(), CallAt(0)) == TokenAdded()
  {
    assert CallAt(0) == AddToken(Usdc);
    TokenAddedReached();
  }

  lemma Step1()
    ensures Settle(TokenAdded(), CallAt(1)) == TokenAdded().(projects := [Lone()])
  {
    assert CallAt(1) == Create(LoneInfo(), Single());
    CreatedTwice();
  }

  lemma Step2()
    ensures Settle(TokenAdded().(projects := [Lone()]), CallAt(2)) == S3()
  {
    assert CallAt(2) == Create(LoneInfo(), Single());
    CreatedTwice();
  }

  lemma Step3()
    ensures Settle(S3(), CallAt(3)) == S4()
  {
    assert CallAt(3) == Donate(Owner, 0, 100000, 100000);
    FirstDonation();
    SettleDonate(S3(), Owner, 0, 100000, 100000, S4());
  }

  lemma Step4()
    ensures Settle(S4(), CallAt(4)) == S5()
  {
    assert CallAt(4) == Vote(Owner, 0, true);
    FirstVote();
    SettleVote(S4(), Owner, 0, true, S5());
  }

  lemma Step5()
    ensures Settle(S5(), CallAt(5)) == S6()
  {
    assert CallAt(5) == EndVoting(0);
    FirstRelease();
    SettleEndVoting(S5(), 0, S6());
  }

  lemma Step6()
    ensures Settle(S6(), CallAt(6)) == S7()
  {
    assert CallAt(6) == MoveFunds(0, 1);
    Moved();
    SettleMoveFunds(S6(), 0, 1, S7());
  }

  lemma Step7()
    ensures Settle(S7(), CallAt(7)) == S8()
  {
    assert CallAt(7) == Donate(Addr1, 1, 20000, 20000);
    SecondDonation();
    SettleDonate(S7(), Addr1, 1, 20000, 20000, S8());
  }

  lemma Step8()
    ensures Settle(S8(), CallAt(8)) == S9()
  {
    assert CallAt(8) == Vote(Addr1, 1, true);
    SecondVote();
    SettleVote(S8(), Addr1, 1, true, S9());
  }

  lemma Step9()
    ensures Settle(S9(), CallAt(9)) == S10()
  {
    assert CallAt(9) == EndVoting(1);
    SecondRelease();
    SettleEndVoting(S9(), 1, S10());
  }

  /** Every call of the run succeeds and the run ends in `S10`. */
  lemma RunReaches()
    ensures Run(Init(), Calls()) == S10()
  {
    Step0();
    Step1();
    Step2();
    Step3();
    Step4();
    Step5();
    Step6();
    Step7();
    Step8();
    Step9();
    RunFrom(Init(), 0);
    RunFrom(TokenAdded(), 1);
    RunFrom(TokenAdded().(projects := [Lone()]), 2);
    RunFrom(S3(), 3);
    RunFrom(S4(), 4);
    RunFrom(S5(), 5);
    RunFrom(S6(), 6);
    RunFrom(S7(), 7);
    RunFrom(S8(), 8);
    RunFrom(S9(), 9);
    assert From(10) == [];
  }

  /** In `S10` the escrow holds 120000 and owes 200000. */
  lemma S10Insolvent()
    ensures Balance(S10().holdings, Usdc) == 120000
    ensures Total(S10().projects, Owed, Usdc) == 200000
    ensures !Solvent(S10())
  {
    var ps := S10().projects;
    assert ps[..1] == [LoneReleased(0)];
    assert ps[..1][..0] == [];
    assert Total(ps[..1], Owed, Usdc) == 100000;
  }

  /** After the run both owners may withdraw 100000 while the escrow holds 120000: the
      moved 100000 was released once by the source and again by the destination. The first
      owner's withdrawal succeeds and the second one's transfer fails. */
  lemma MoveFundsBreaksSolvency()
    ensures Run(Init(), Calls()) == S10()
    ensures Balance(S10().holdings, Usdc) == 120000
    ensures Total(S10().projects, Owed, Usdc) == 200000
    ensures !Solvent(Run(Init(), Calls()))
    ensures WithdrawFunds(S10(), Owner, 0).Ok? && WithdrawFunds(S10(), Owner, 0).value.amount == 100000
    ensures WithdrawFunds(WithdrawFunds(S10(), Owner, 0).value.state, Owner, 1) == Err(LedgerTransferFailed)
  {
    RunReaches();
    S10Insolvent();
  }
}
