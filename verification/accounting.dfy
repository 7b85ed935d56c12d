/** Invariants of the escrow and the proofs that the entry points keep them.

    Two invariants are kept apart:
    - `StructInv`, the shape of every project (the tranche index stays within the tranche list,
      only the current tranche is ever in session), is kept by every call;
    - `AccountingInv`, every released amount backed by funding and the escrow's holdings
      equal to fee pools plus unreleased funding, is kept by every call except
      `withdrawFundsToOtherProject`, which moves funding whose release has already been
      counted. From `AccountingInv` follows `Solvent`: the holdings of each token cover its
      fee pool plus everything the owners may still withdraw. */
module Accounting {
  import opened Types
  import opened Thresholds
  import opened Crowdfunding

  // ----- Structure -----

  predicate WellFormed(p: Project)
  {
    && 0 < |p.thresholds|
    && p.currentThreshold <= |p.thresholds|
    && p.owner != NullAddress
    && forall k :: 0 <= k < |p.thresholds| && p.thresholds[k].voteSession.isVotingInSession ==> k == p.currentThreshold
  }

  predicate StructInv(s: State)
  {
    && NullAddress !in s.supportedTokens
    && forall i :: 0 <= i < |s.projects| ==> WellFormed(s.projects[i]) && s.projects[i].exchangeToken in s.supportedTokens
  }

  // ----- Money -----

  /** The funds a project has released (still withdrawable or already paid out) are those
      of the tranches that passed, and never more than its funding; an open session means
      the funding covers the tranche under vote. */
  predicate Backed(p: Project)
  {
    && (p.currentThreshold < |p.thresholds| ==>
          p.availableToWithdraw + p.withdrawn == CumulativeBudget(p.thresholds, p.currentThreshold))
    && (p.InSession() ==> Covers(p.currentAmount, p.thresholds, p.currentThreshold))
    && p.availableToWithdraw + p.withdrawn <= p.currentAmount
  }

  /** The per-project quantities summed over all projects of one token. */
  datatype Measure = Funding | Reserve | Owed

  function Weight(m: Measure, tok: Address, p: Project): int
  {
    if p.exchangeToken != tok then 0
    else match m
      case Funding => p.currentAmount
      case Reserve => p.currentAmount - p.withdrawn
      case Owed => p.availableToWithdraw
  }

  function Total(ps: seq<Project>, m: Measure, tok: Address): int
    decreases |ps|
  {
    if |ps| == 0 then 0 else Total(ps[..|ps| - 1], m, tok) + Weight(m, tok, ps[|ps| - 1])
  }

  ghost predicate HoldingsMatch(s: State)
  {
    forall tok :: Balance(s.holdings, tok) == Balance(s.fees, tok) + Total(s.projects, Reserve, tok)
  }

  ghost predicate AccountingInv(s: State)
  {
    && (forall i :: 0 <= i < |s.projects| ==> Backed(s.projects[i]))
    && HoldingsMatch(s)
  }

  /** The escrow can pay every fee pool and every owner's withdrawable balance at once. */
  ghost predicate Solvent(s: State)
  {
    forall tok :: Balance(s.holdings, tok) >= Balance(s.fees, tok) + Total(s.projects, Owed, tok)
  }

  // ----- Sums -----

  lemma {:induction false} TotalUpdate(ps: seq<Project>, i: nat, q: Project, m: Measure, tok: Address)
    requires i < |ps|
    ensures Total(ps[i := q], m, tok) == Total(ps, m, tok) - Weight(m, tok, ps[i]) + Weight(m, tok, q)
  {
    var n := |ps|;
    if i == n - 1 {
      assert ps[i := q][..n - 1] == ps[..n - 1];
    } else {
      assert ps[i := q][..n - 1] == ps[..n - 1][i := q];
      TotalUpdate(ps[..n - 1], i, q, m, tok);
    }
  }

  lemma TotalAppend(ps: seq<Project>, q: Project, m: Measure, tok: Address)
    ensures Total(ps + [q], m, tok) == Total(ps, m, tok) + Weight(m, tok, q)
  {
    assert (ps + [q])[..|ps|] == ps;
  }

  lemma {:induction false} TotalDominated(ps: seq<Project>, lo: Measure, hi: Measure, tok: Address)
    requires forall k :: 0 <= k < |ps| ==> Weight(lo, tok, ps[k]) <= Weight(hi, tok, ps[k])
    ensures Total(ps, lo, tok) <= Total(ps, hi, tok)
  {
    if |ps| > 0 {
      TotalDominated(ps[..|ps| - 1], lo, hi, tok);
    }
  }

  /** Replacing one project changes each total by the difference of its weights. */
  lemma TotalsAfterUpdate(s: State, id: ProjectId, q: Project)
    requires id < |s.projects|
    ensures forall m, tok :: Total(UpdateProject(s, id, q).projects, m, tok)
                             == Total(s.projects, m, tok) - Weight(m, tok, s.projects[id]) + Weight(m, tok, q)
  {
    forall m, tok
      ensures Total(UpdateProject(s, id, q).projects, m, tok)
              == Total(s.projects, m, tok) - Weight(m, tok, s.projects[id]) + Weight(m, tok, q)
    {
      TotalUpdate(s.projects, id, q, m, tok);
    }
  }

  lemma {:induction false} OwedTotalNonNegative(ps: seq<Project>, tok: Address)
    ensures Total(ps, Owed, tok) >= 0
  {
    if |ps| > 0 {
      OwedTotalNonNegative(ps[..|ps| - 1], tok);
    }
  }

  /** One project's withdrawable balance is part of its token's total. */
  lemma {:induction false} OwedAtMostTotal(ps: seq<Project>, i: nat, tok: Address)
    requires i < |ps|
    ensures Weight(Owed, tok, ps[i]) <= Total(ps, Owed, tok)
  {
    var n := |ps|;
    if i == n - 1 {
      OwedTotalNonNegative(ps[..n - 1], tok);
    } else {
      assert ps[..n - 1][i] == ps[i];
      OwedAtMostTotal(ps[..n - 1], i, tok);
    }
  }

  /** The accounting invariant implies solvency. */
  lemma AccountingInvSolvent(s: State)
    requires AccountingInv(s)
    ensures Solvent(s)
  {
    forall tok
      ensures Balance(s.holdings, tok) >= Balance(s.fees, tok) + Total(s.projects, Owed, tok)
    {
      TotalDominated(s.projects, Owed, Reserve, tok);
    }
  }

  /** In a solvent state the owner of a positive withdrawable balance is always paid: the
      token transfer cannot fail. */
  lemma SolventPaysOwner(s: State, id: ProjectId)
    requires Solvent(s)
    requires id < |s.projects| && s.projects[id].availableToWithdraw > 0
    ensures WithdrawFunds(s, s.projects[id].owner, id).Ok?
    ensures WithdrawFunds(s, s.projects[id].owner, id).value.amount == s.projects[id].availableToWithdraw
  {
    var tok := s.projects[id].exchangeToken;
    OwedAtMostTotal(s.projects, id, tok);
    assert Balance(s.holdings, tok) >= Balance(s.fees, tok) + Total(s.projects, Owed, tok);
  }

  /** In a solvent state a positive fee pool is always paid. */
  lemma SolventPaysFees(s: State, token: Address)
    requires Solvent(s)
    requires token != NullAddress && Balance(s.fees, token) > 0
    ensures WithdrawFees(s, token).Ok?
    ensures WithdrawFees(s, token).value.amount == Balance(s.fees, token)
  {
    OwedTotalNonNegative(s.projects, token);
    assert Balance(s.holdings, token) >= Balance(s.fees, token) + Total(s.projects, Owed, token);
  }

  // ----- Project-level steps -----

  /** Changing only sessions (keeping the budgets) keeps a project's backing, provided
      no session that was closed is opened. */
  lemma BackedAfterSessionChange(p: Project, q: Project)
    requires Backed(p)
    requires q == p.(thresholds := q.thresholds) && SameBudgets(p.thresholds, q.thresholds)
    requires q.InSession() ==> p.InSession()
    ensures Backed(q)
  {
    if p.currentThreshold <= |p.thresholds| {
      CumulativeBudgetOfSameBudgets(p.thresholds, q.thresholds, p.currentThreshold);
    }
    if q.InSession() {
      CumulativeBudgetOfSameBudgets(p.thresholds, q.thresholds, p.currentThreshold + 1);
    }
  }

  lemma FundKeeps(p: Project, net: nat)
    requires WellFormed(p)
    ensures WellFormed(Fund(p, net))
    ensures Backed(p) ==> Backed(Fund(p, net))
  {
    var q := Fund(p, net);
    if !p.AllPassed() {
      CumulativeBudgetOfSameBudgets(p.thresholds, q.thresholds, p.currentThreshold);
      CumulativeBudgetOfSameBudgets(p.thresholds, q.thresholds, p.currentThreshold + 1);
    }
  }

  lemma DeliberateKeeps(p: Project)
    requires WellFormed(p) && p.InSession() && p.CurrentSession().Total() > 0
    ensures WellFormed(Deliberate(p))
    ensures Backed(p) ==> Backed(Deliberate(p))
  {
    var q := Deliberate(p);
    var cur := p.currentThreshold;
    CumulativeBudgetOfSameBudgets(p.thresholds, q.thresholds, cur);
    CumulativeBudgetOfSameBudgets(p.thresholds, q.thresholds, cur + 1);
    if q.currentThreshold == cur + 1 && cur + 1 < |p.thresholds| {
      CumulativeBudgetOfSameBudgets(p.thresholds, q.thresholds, cur + 2);
    }
  }

  // ----- One lemma per entry point -----

  lemma AddNewSupportedTokenKeeps(s: State, token: Address)
    requires StructInv(s)
    requires AddNewSupportedToken(s, token).Ok?
    ensures StructInv(AddNewSupportedToken(s, token).value)
    ensures AccountingInv(s) ==> AccountingInv(AddNewSupportedToken(s, token).value)
  {
  }

  lemma CreateProjectKeeps(s: State, data: ProjectData, ths: seq<Threshold>)
    requires StructInv(s)
    requires CreateProject(s, data, ths).Ok?
    ensures StructInv(CreateProject(s, data, ths).value)
    ensures AccountingInv(s) ==> AccountingInv(CreateProject(s, data, ths).value)
  {
    var s' := CreateProject(s, data, ths).value;
    assert !IsFlaw(s, data, ths, ZeroThresholds) && !IsFlaw(s, data, ths, ZeroAddress);
    assert !IsFlaw(s, data, ths, TokenNotSupported);
    var p := NewProject(data, ths);
    assert s'.projects == s.projects + [p];
    forall tok
      ensures Total(s'.projects, Reserve, tok) == Total(s.projects, Reserve, tok)
    {
      TotalAppend(s.projects, p, Reserve, tok);
    }
  }

  lemma DonateToProjectKeeps(s: State, donor: Address, id: ProjectId, amount: nat, allowance: nat)
    requires StructInv(s)
    requires DonateToProject(s, donor, id, amount, allowance).Ok?
    ensures StructInv(DonateToProject(s, donor, id, amount, allowance).value)
    ensures AccountingInv(s) ==> AccountingInv(DonateToProject(s, donor, id, amount, allowance).value)
  {
    var s' := DonateToProject(s, donor, id, amount, allowance).value;
    var p := s.projects[id];
    var fee := Fee(amount, p.donationFee);
    FundKeeps(p, amount - fee);
    TotalsAfterUpdate(s, id, s'.projects[id]);
    assert s'.projects == UpdateProject(s, id, s'.projects[id]).projects;
  }

  lemma VoteForThresholdKeeps(s: State, voter: Address, id: ProjectId, vote: bool)
    requires StructInv(s)
    requires VoteForThreshold(s, voter, id, vote).Ok?
    ensures StructInv(VoteForThreshold(s, voter, id, vote).value)
    ensures AccountingInv(s) ==> AccountingInv(VoteForThreshold(s, voter, id, vote).value)
  {
    var s' := VoteForThreshold(s, voter, id, vote).value;
    var p := s.projects[id];
    var q := s'.projects[id];
    if Backed(p) {
      BackedAfterSessionChange(p, q);
    }
    TotalsAfterUpdate(s, id, q);
    assert s'.projects == UpdateProject(s, id, q).projects;
  }

  lemma EndThresholdVotingKeeps(s: State, id: ProjectId)
    requires StructInv(s)
    requires EndThresholdVoting(s, id).Ok?
    ensures StructInv(EndThresholdVoting(s, id).value)
    ensures AccountingInv(s) ==> AccountingInv(EndThresholdVoting(s, id).value)
  {
    var p := s.projects[id];
    DeliberateKeeps(p);
    TotalsAfterUpdate(s, id, Deliberate(p));
  }

  lemma WithdrawFundsKeeps(s: State, caller: Address, id: ProjectId)
    requires StructInv(s)
    requires WithdrawFunds(s, caller, id).Ok?
    ensures StructInv(WithdrawFunds(s, caller, id).value.state)
    ensures AccountingInv(s) ==> AccountingInv(WithdrawFunds(s, caller, id).value.state)
  {
    var s' := WithdrawFunds(s, caller, id).value.state;
    TotalsAfterUpdate(s, id, s'.projects[id]);
    assert s'.projects == UpdateProject(s, id, s'.projects[id]).projects;
  }

  lemma WithdrawFeesKeeps(s: State, token: Address)
    requires StructInv(s)
    requires WithdrawFees(s, token).Ok?
    ensures StructInv(WithdrawFees(s, token).value.state)
    ensures AccountingInv(s) ==> AccountingInv(WithdrawFees(s, token).value.state)
  {
  }

  lemma SetDonationFeeKeeps(s: State, id: ProjectId, fee: nat)
    requires StructInv(s)
    requires SetDonationFee(s, id, fee).Ok?
    ensures StructInv(SetDonationFee(s, id, fee).value)
    ensures AccountingInv(s) ==> AccountingInv(SetDonationFee(s, id, fee).value)
  {
    TotalsAfterUpdate(s, id, s.projects[id].(donationFee := fee));
  }

  lemma UpdateProjectStatusKeeps(s: State, id: ProjectId, active: bool)
    requires StructInv(s)
    requires UpdateProjectStatus(s, id, active).Ok?
    ensures StructInv(UpdateProjectStatus(s, id, active).value)
    ensures AccountingInv(s) ==> AccountingInv(UpdateProjectStatus(s, id, active).value)
  {
    TotalsAfterUpdate(s, id, s.projects[id].(isActive := active));
  }

  lemma UpdateProjectVoteCooldownKeeps(s: State, id: ProjectId, cooldown: nat)
    requires StructInv(s)
    requires UpdateProjectVoteCooldown(s, id, cooldown).Ok?
    ensures StructInv(UpdateProjectVoteCooldown(s, id, cooldown).value)
    ensures AccountingInv(s) ==> AccountingInv(UpdateProjectVoteCooldown(s, id, cooldown).value)
  {
    TotalsAfterUpdate(s, id, s.projects[id].(voteCooldown := cooldown));
  }

  /** Moving funds between projects keeps the structure, keeps the holdings equation and
      the total funding of every token; it keeps the backing of every project but the
      source, whose funding drops to zero under what it has already released. */
  lemma WithdrawFundsToOtherProjectKeeps(s: State, from: ProjectId, to: ProjectId)
    requires StructInv(s)
    requires WithdrawFundsToOtherProject(s, from, to).Ok?
    ensures StructInv(WithdrawFundsToOtherProject(s, from, to).value)
    ensures HoldingsMatch(s) ==> HoldingsMatch(WithdrawFundsToOtherProject(s, from, to).value)
    ensures forall tok :: Total(WithdrawFundsToOtherProject(s, from, to).value.projects, Funding, tok)
                          == Total(s.projects, Funding, tok)
    ensures forall j :: 0 <= j < |s.projects| && j != from && Backed(s.projects[j]) ==>
      Backed(WithdrawFundsToOtherProject(s, from, to).value.projects[j])
  {
    var s' := WithdrawFundsToOtherProject(s, from, to).value;
    var a := s.projects[from];
    var b := s.projects[to];
    var a' := a.(currentAmount := 0);
    var b' := b.(currentAmount := b.currentAmount + a.currentAmount);
    var mid := s.projects[from := a'];
    assert s'.projects == mid[to := b'];
    forall m, tok
      ensures Total(s'.projects, m, tok) == Total(s.projects, m, tok)
                - Weight(m, tok, a) + Weight(m, tok, a') - Weight(m, tok, b) + Weight(m, tok, b')
    {
      TotalUpdate(s.projects, from, a', m, tok);
      TotalUpdate(mid, to, b', m, tok);
    }
  }

  // ----- Calls and runs -----

  lemma StepKeeps(s: State, c: Call)
    requires StructInv(s)
    ensures StructInv(Settle(s, c))
    ensures AccountingInv(s) && !c.MoveFunds? ==> AccountingInv(Settle(s, c))
  {
    if Step(s, c).Ok? {
      match c
      case AddToken(token) => AddNewSupportedTokenKeeps(s, token);
      case Create(data, ths) => CreateProjectKeeps(s, data, ths);
      case Donate(donor, id, amount, allowance) => DonateToProjectKeeps(s, donor, id, amount, allowance);
      case Vote(voter, id, choice) => VoteForThresholdKeeps(s, voter, id, choice);
      case EndVoting(id) => EndThresholdVotingKeeps(s, id);
      case WithdrawOwnerFunds(caller, id) => WithdrawFundsKeeps(s, caller, id);
      case WithdrawProtocolFees(token) => WithdrawFeesKeeps(s, token);
      case MoveFunds(from, to) => WithdrawFundsToOtherProjectKeeps(s, from, to);
      case SetFee(id, fee) => SetDonationFeeKeeps(s, id, fee);
      case SetStatus(id, active) => UpdateProjectStatusKeeps(s, id, active);
      case SetCooldown(id, cooldown) => UpdateProjectVoteCooldownKeeps(s, id, cooldown);
    }
  }

  lemma InitInv()
    ensures StructInv(Init()) && AccountingInv(Init())
  {
  }

  /** Every call sequence keeps the structure: the tranche index of every project stays within
      its tranche list and only the current tranche is ever in session. */
  lemma {:induction false} RunKeepsStructure(s: State, calls: seq<Call>)
    requires StructInv(s)
    ensures StructInv(Run(s, calls))
    decreases |calls|
  {
    if |calls| > 0 {
      StepKeeps(s, calls[0]);
      RunKeepsStructure(Settle(s, calls[0]), calls[1..]);
    }
  }

  /** A call sequence without transfers between projects keeps the accounting invariant. */
  lemma {:induction false} RunKeepsAccounting(s: State, calls: seq<Call>)
    requires StructInv(s) && AccountingInv(s)
    requires forall k :: 0 <= k < |calls| ==> !calls[k].MoveFunds?
    ensures AccountingInv(Run(s, calls))
    decreases |calls|
  {
    if |calls| > 0 {
      StepKeeps(s, calls[0]);
      RunKeepsAccounting(Settle(s, calls[0]), calls[1..]);
    }
  }

  /** From deployment, any sequence of calls without `withdrawFundsToOtherProject` leaves
      the escrow able to pay every fee pool and every owner's withdrawable balance. */
  lemma SolventWithoutTransfers(calls: seq<Call>)
    requires forall k :: 0 <= k < |calls| ==> !calls[k].MoveFunds?
    ensures Solvent(Run(Init(), calls))
    ensures StructInv(Run(Init(), calls))
  {
    InitInv();
    RunKeepsStructure(Init(), calls);
    RunKeepsAccounting(Init(), calls);
    AccountingInvSolvent(Run(Init(), calls));
  }

  /** In a solvent state no call fails because the escrow cannot cover a payout. */
  lemma SolventNoLedgerFailure(s: State, c: Call)
    requires Solvent(s)
    ensures Step(s, c) != Err(LedgerTransferFailed)
  {
    match c
    case WithdrawOwnerFunds(caller, id) =>
      if WithdrawFunds(s, caller, id) == Err(LedgerTransferFailed) {
        SolventPaysOwner(s, id);
        assert false;
      }
    case WithdrawProtocolFees(token) =>
      if WithdrawFees(s, token) == Err(LedgerTransferFailed) {
        SolventPaysFees(s, token);
        assert false;
      }
    case Create(data, ths) =>
      assert !IsFlaw(s, data, ths, LedgerTransferFailed);
    case _ =>
  }

  /** After any run from deployment without moves between projects, no call fails because
      the escrow cannot cover a payout. */
  lemma NoLedgerFailureWithoutTransfers(calls: seq<Call>, c: Call)
    requires forall k :: 0 <= k < |calls| ==> !calls[k].MoveFunds?
    ensures Step(Run(Init(), calls), c) != Err(LedgerTransferFailed)
  {
    SolventWithoutTransfers(calls);
    SolventNoLedgerFailure(Run(Init(), calls), c);
  }
}
