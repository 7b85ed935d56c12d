# Crowdfunding escrow — a Dafny model

This project models the `Crowdfunding` contract's escrow and governance state machine. The
contract's behaviour is taken from its test suite, `test/Crowdfunding.ts`. The Solidity
source is not part of this model.

- A **project** has an owner and an ERC-20 exchange token. It has an ordered list of budget
  **tranches** (thresholds). Each tranche has a **vote session** holding a positive and a
  negative tally.
- **Donations** in the project's token are gated three ways: a minimum amount, an approved
  allowance, and an active project. A basis-point fee is skimmed into a per-token fee pool.
  The rest is added to the project's funding. A donation whose net would be zero is refused
  as too small.
- When the funding covers the running sum of the budgets up to the current tranche, that
  tranche's session opens.
- **Donors** vote once per tranche. **Deliberation** closes the session. It passes when the
  positive share, in basis points rounded down, is strictly above the project's required
  percentage. A pass releases the tranche's budget to the owner. It also advances the
  tranche index, and opens the next tranche's session at once if the funding already covers it.
  Once every tranche has passed, a donation's net amount is released immediately.
- There are three settlement paths:
  - the owner withdraws the released balance;
  - the fee withdrawer takes a token's fee pool;
  - a project's whole funding moves to another project on the same token.
- Registry setters and read-only getters complete the surface.

Each entry point is a pure function from the state before the call to `Ok(state after)`
or `Err(the error it reverts with)`. A sequence of calls is folded by `Run`, with reverted
calls leaving the state unchanged. The model adds two bookkeeping quantities so that
solvency can be stated:
- `State.holdings`: the escrow's own balance of each token;
- `Project.withdrawn`: the total already paid to the owner.

Solvency: every run from deployment that never calls `withdrawFundsToOtherProject` leaves
the escrow holding, for each token, at least that token's fee pool plus everything owners may
still withdraw (`Accounting.SolventWithoutTransfers`). On such a run no payout fails for lack of tokens
(`Accounting.NoLedgerFailureWithoutTransfers`). With that call the property fails. The
call moves a project's whole funding, including the part already released to its owner, and
the destination can release those tokens a second time. `DoubleRelease` gives a reachable
ten-call run that ends with 120000 held against 200000 owed.

Modules:
- `Types`: addresses, basis points, errors, `Result`, fee arithmetic.
- `Thresholds`: tranches, running budget sums, the pass rule.
- `Crowdfunding`: the state and every entry point.
- `Accounting`: the invariants and their preservation.
- `Properties`: multi-call properties.
- `Scenarios`: the test fixtures and expectations, replayed on the model.
- `DoubleRelease`: a reachable run that leaves the escrow owing more than it holds.

## Model

| member | source | states |
|---|---|---|
| Types.Fee | test/Crowdfunding.ts:164-215 | the skimmed fee never exceeds the donation, and a zero rate skims nothing |
| Types.FeeIsRoundedDown | test/Crowdfunding.ts:204-206 | the fee is `amount * bps / 10000` rounded down (bracketed between consecutive multiples of 10000); below a 100% rate it is less than any positive donation |
| Types.Net | test/Crowdfunding.ts:164-215 | fee plus net is exactly the donation; the net is positive below a 100% rate, and the whole donation at 0% |
| Thresholds.CumulativeBudgetOfSameBudgets | test/Crowdfunding.ts:683-713 | opening or closing sessions never changes a running sum of tranche budgets |
| Thresholds.CumulativeBudgetMonotone | test/Crowdfunding.ts:865-890 | a running sum of budgets never decreases as more tranches are included |
| Thresholds.Covers | test/Crowdfunding.ts:683-713 | funding covers a tranche when it reaches the running sum of the budgets up to and including it; covering a tranche means its own budget and the previous tranche's running sum are both reached |
| Thresholds.WithSession | test/Crowdfunding.ts:800-813 | replacing one tranche's session keeps every budget and every other tranche |
| Thresholds.Closed | test/Crowdfunding.ts:536-569 | the stored tranche list has the given budgets, with every session closed and its tallies at zero |
| Thresholds.PassesIffCrossMultiplied | test/Crowdfunding.ts:846-919 | the rounded basis-point test `pos*10000/total > required` holds exactly when `pos*10000 >= (required+1)*total` |
| Thresholds.Passes | test/Crowdfunding.ts:846-919 | the deliberation rule: the positive share in basis points, rounded down, strictly above the required percentage; a pass needs at least one positive ballot and a positive share strictly above the required one |
| Thresholds.TieFailsAtHalf | test/Crowdfunding.ts:905-919 | an n-n tie fails at a 50% requirement |
| Thresholds.UnanimousPasses | test/Crowdfunding.ts:851-863 | an all-positive tally passes whenever the requirement is below 100% |
| Thresholds.NoPositiveFails | test/Crowdfunding.ts:892-903 | a tally without positive ballots never passes |
| Thresholds.PassesMonotone | test/Crowdfunding.ts:846-919 | one more positive ballot never turns a pass into a failure |
| Crowdfunding.AddNewSupportedToken | test/Crowdfunding.ts:586-598 | the null address is refused with `ZeroAddress`, and only it is; any other token is added to the supported set |
| Crowdfunding.IsTokenSupported | test/Crowdfunding.ts:763-775 | a token reads as supported exactly when it has been registered |
| Crowdfunding.NewProject | test/Crowdfunding.ts:536-569 | a created project starts active, with funding, release and tranche index at zero and every tranche closed, whatever session the caller passed (see Left out); the budgets and the other fields are as given |
| Crowdfunding.CreateProject | test/Crowdfunding.ts:474-569 | a reported error always names a real defect of the request; success means the request has no defect and appends exactly the new project |
| Crowdfunding.LoneFlawIsReported | test/Crowdfunding.ts:474-534 | a request with exactly one defect is refused with that defect's error (token, tranches, amount, percentage or fee above 10000, owner, cooldown, percentage zero) |
| Crowdfunding.IsFlaw | test/Crowdfunding.ts:474-534 | the defects `createProject` checks, one per error: unsupported token, no tranches, zero goal, percentage or fee above 10000, null owner, zero cooldown, zero percentage; no other error names a defect |
| Crowdfunding.UpdateProjectStatus | test/Crowdfunding.ts:1018-1046 | refused with `InvalidProjectId` exactly for an unknown id; otherwise only the status changes |
| Crowdfunding.UpdateProjectVoteCooldown | test/Crowdfunding.ts:1060-1071 | refused with `InvalidProjectId` exactly for an unknown id; otherwise only the cooldown changes |
| Crowdfunding.SetDonationFee | test/Crowdfunding.ts:967-1004 | accepted exactly for a known id and a fee of at most 10000; the error is `InvalidProjectId` first, then `CantGoAbove10000`; only the fee changes |
| Crowdfunding.Fund | test/Crowdfunding.ts:683-750 | funding grows by the net; after the last tranche the net is released at once; otherwise the current session is open afterwards exactly when it was open before or the new funding covers the tranche, and a newly opened session has an empty tally |
| Crowdfunding.DonateToProject | test/Crowdfunding.ts:652-750 | each revert (`InvalidProjectId`, `ZeroAmount`, `ProjectNotActive`, `AmountTooSmall`, `AllowanceNotApproved`) happens under its own condition, in that order, with a donation whose net credit would be zero refused as too small; success happens exactly for a known active project and a donation between the minimum and the allowance with a positive net; the fee pool, the escrow's holdings and the donor's record grow by fee, gross and gross on that token or donor only |
| Crowdfunding.VoteForThreshold | test/Crowdfunding.ts:777-813 | the reverts `InvalidProjectId`, `NotADonator`, `NotInVotingSession` and `CanOnlyVoteOnce` under their conditions, and success exactly for a donor's first ballot on an open session; an accepted ballot is recorded and adds one to the chosen side only; the session stays open and the other tranches are untouched |
| Crowdfunding.Deliberate | test/Crowdfunding.ts:846-919 | the decided session closes with its tally kept; on a pass the tranche index advances, the tranche's budget is released, and the next session opens fresh exactly when the funding covers it; on a failure nothing moves and no session is open |
| Crowdfunding.EndThresholdVoting | test/Crowdfunding.ts:815-849 | reverts with `InvalidProjectId`, `NotInVotingSession` or `CantDeliberateWithoutVotes` under their conditions, and succeeds exactly for an open session with at least one ballot |
| Crowdfunding.WithdrawFunds | test/Crowdfunding.ts:922-965 | `InvalidProjectId`, then `NotProjectOwner`, then `NoFundsToWithdraw`; success exactly when the owner has a positive released balance that the escrow's holdings cover; a payout pays exactly that balance, zeroes it, and leaves the holdings that much lower |
| Crowdfunding.WithdrawFees | test/Crowdfunding.ts:600-650 | `ZeroAddress`, then `NoFeesToWithdraw`; success exactly for a non-null token with a positive fee pool that the holdings cover; a payout is exactly the pool, empties it, and touches no other token |
| Crowdfunding.WithdrawFundsToOtherProject | test/Crowdfunding.ts:1140-1235 | the five reverts (`InvalidProjectId`, `CantWithdrawToSameProject`, `DifferentExchangeToken`, `ProjectNotActive`, `NoFundsToWithdraw`) under their conditions, in order, and no other error; success exactly for two distinct known projects on one token with an active destination and a funded source; the source's whole funding is added to the destination, the source is left at zero and the other projects are untouched |
| Crowdfunding.GetProject | test/Crowdfunding.ts:1073-1085 | `InvalidProjectId` exactly past the last project; for a known id, `Ok` with the stored record |
| Crowdfunding.GetProjectThresholds | test/Crowdfunding.ts:1086-1107 | `InvalidProjectId`, then `InvalidThresholdId` past the last tranche; for a known project and tranche, `Ok` with that tranche |
| Crowdfunding.GetThresholdVoteFromAddress | test/Crowdfunding.ts:1108-1126 | the same two id errors; for a known project and tranche, `Ok(true)` exactly when the voter has cast a ballot there, whatever its choice |
| Crowdfunding.GetUserDonations | test/Crowdfunding.ts:1127-1139 | `InvalidProjectId` exactly for an unknown id; for a known id, `Ok` with the donor's gross total (0 if none) |
| Crowdfunding.IsDonator | test/Crowdfunding.ts:752-762 | `InvalidProjectId` exactly for an unknown id; for a known id, `Ok(true)` exactly when the user has donated something |
| Crowdfunding.GetFeesAvailableToWithdraw | test/Crowdfunding.ts:204-206 | the token's fee pool, and 0 for a token that never received a fee |
| Accounting.AccountingInvSolvent | test/Crowdfunding.ts:922-965 | backed releases together with holdings equal to fee pools plus unpaid funding imply that each token's holdings cover its fee pool plus every owner's withdrawable balance |
| Accounting.OwedAtMostTotal | test/Crowdfunding.ts:922-965 | one project's withdrawable balance never exceeds its token's total owed |
| Accounting.SolventPaysOwner | test/Crowdfunding.ts:944-957 | in a solvent state the owner of a positive released balance is paid exactly that balance; the transfer cannot fail |
| Accounting.SolventPaysFees | test/Crowdfunding.ts:631-643 | in a solvent state a positive fee pool is paid in full; the transfer cannot fail |
| Accounting.BackedAfterSessionChange | test/Crowdfunding.ts:777-813 | changing sessions without opening a closed one keeps a project's releases backed |
| Accounting.FundKeeps | test/Crowdfunding.ts:683-750 | crediting a donation keeps a project well formed and its releases backed |
| Accounting.DeliberateKeeps | test/Crowdfunding.ts:846-919 | deliberation keeps a project well formed (tranche index within range, only the current tranche in session) and its releases backed |
| Accounting.AddNewSupportedTokenKeeps | test/Crowdfunding.ts:571-598 | adding a token keeps both invariants |
| Accounting.CreateProjectKeeps | test/Crowdfunding.ts:474-569 | creating a project keeps both invariants |
| Accounting.DonateToProjectKeeps | test/Crowdfunding.ts:652-750 | a donation keeps both invariants: the escrow's holdings grow by exactly what the fee pool and the funding gain |
| Accounting.VoteForThresholdKeeps | test/Crowdfunding.ts:777-813 | a ballot keeps both invariants |
| Accounting.EndThresholdVotingKeeps | test/Crowdfunding.ts:815-919 | a deliberation keeps both invariants |
| Accounting.WithdrawFundsKeeps | test/Crowdfunding.ts:922-965 | an owner payout keeps both invariants |
| Accounting.WithdrawFeesKeeps | test/Crowdfunding.ts:600-650 | a fee payout keeps both invariants |
| Accounting.SetDonationFeeKeeps | test/Crowdfunding.ts:967-1004 | changing the fee keeps both invariants |
| Accounting.UpdateProjectStatusKeeps | test/Crowdfunding.ts:1006-1046 | changing the status keeps both invariants |
| Accounting.UpdateProjectVoteCooldownKeeps | test/Crowdfunding.ts:1048-1071 | changing the cooldown keeps both invariants |
| Accounting.WithdrawFundsToOtherProjectKeeps | test/Crowdfunding.ts:1140-1235 | a move keeps the structure, the holdings equation and each token's total funding, and keeps every project but the source backed |
| Accounting.StepKeeps | test/Crowdfunding.ts:457-1235 | every call keeps the structure; every call except a move between projects keeps the accounting invariant |
| Accounting.InitInv | test/Crowdfunding.ts:9-19 | the deployed contract satisfies both invariants |
| Accounting.RunKeepsStructure | test/Crowdfunding.ts:457-1235 | every sequence of calls keeps the structure |
| Accounting.RunKeepsAccounting | test/Crowdfunding.ts:457-1235 | every sequence of calls without moves between projects keeps the accounting invariant |
| Accounting.SolventWithoutTransfers | test/Crowdfunding.ts:922-965 | after any run from deployment without moves, the escrow can pay every fee pool and every withdrawable balance at once |
| Accounting.SolventNoLedgerFailure | test/Crowdfunding.ts:922-965 | in a solvent state no call fails with `LedgerTransferFailed` |
| Accounting.NoLedgerFailureWithoutTransfers | test/Crowdfunding.ts:922-965 | after any run from deployment without moves between projects, no call fails with `LedgerTransferFailed` |
| Properties.AddTokenThenSupported | test/Crowdfunding.ts:591-598 | a non-null token is accepted, is supported afterwards, earlier tokens stay supported, and adding it again changes nothing |
| Properties.NullTokenNeverSupported | test/Crowdfunding.ts:772-775 | the null address is never supported in any reachable state |
| Properties.CreateThenRead | test/Crowdfunding.ts:536-569 | the getters read back every field of a created project, each tranche as a closed session with its budget (a tranche given closed, as every test and script passes it, reads back exactly as given), and `InvalidThresholdId` or `InvalidProjectId` just past the end |
| Properties.DonationSplitsGross | test/Crowdfunding.ts:164-215 | the fee pool's growth plus the funding's growth is exactly the donation; the fee is rounded down; the funding always grows; the donor's record grows by the gross amount; the release grows by the net only after the last tranche |
| Properties.DonationOpensSessionIff | test/Crowdfunding.ts:683-713 | while tranches remain, the current session is open after a donation exactly when it was open before or the funding covers the tranche |
| Properties.VoteOnlyOnce | test/Crowdfunding.ts:795-813 | a ballot adds one to exactly the chosen side, is read back as cast, and a second ballot by the same voter is refused with `CanOnlyVoteOnce` |
| Properties.BallotsGrow | test/Crowdfunding.ts:795-799 | no call removes a cast ballot |
| Properties.RunKeepsBallots | test/Crowdfunding.ts:795-799 | a cast ballot stays cast through any later sequence of calls |
| Properties.BallotStaysCast | test/Crowdfunding.ts:795-813 | after any calls that follow a ballot, the voter still reads as having voted on that tranche, and while it is under vote a new ballot from that voter is refused with `CanOnlyVoteOnce` |
| Properties.DeliberationOutcome | test/Crowdfunding.ts:846-919 | the tranche index advances exactly when `positive*10000 >= (required+1)*total`; an advance releases that tranche's budget; otherwise nothing is released and no session is open |
| Properties.DeliberationCascade | test/Crowdfunding.ts:865-890 | after an advance, the next tranche is in session exactly when the funding covers it, and then with an empty tally |
| Properties.FailedTrancheReopens | test/Crowdfunding.ts:892-919 | after a failed vote, the next donation reopens the same tranche with an empty tally, and those who already voted on it still cannot vote |
| Properties.WithdrawFundsDrains | test/Crowdfunding.ts:944-957 | an owner payout is the prior released balance; the funding is unchanged and a second payout is refused with `NoFundsToWithdraw` |
| Properties.WithdrawFeesDrains | test/Crowdfunding.ts:631-643 | a fee payout is the prior pool; the pool reads 0 afterwards and a second payout is refused with `NoFeesToWithdraw` |
| Properties.MoveDrainsSource | test/Crowdfunding.ts:1191-1235 | after a move the source has no funding but keeps its status and released balance; the destination gains the source's funding; a second move is refused with `NoFundsToWithdraw` |
| Properties.SettersReadBack | test/Crowdfunding.ts:967-1071 | each setter changes only its own field, which `getProject` then reads back |
| Scenarios.FirstTrancheSums | test/Crowdfunding.ts:30-88 | the default tranches have running sums 50000, 150000 and 300000 |
| Scenarios.TokenAddedReached | test/Crowdfunding.ts:591-598 | registering the token from deployment gives the fixture's token-only state |
| Scenarios.DeployedReached | test/Crowdfunding.ts:148-153 | creating the default project gives the fixture's deployed state |
| Scenarios.PreOpenedSessionIsClosed | test/Crowdfunding.ts:559-565 | a creation request with a tranche already in session is accepted and that tranche reads back closed with an empty tally; no test passes such a session |
| Scenarios.DonatedReached | test/Crowdfunding.ts:216-225 | a 20000 donation gives the donated fixture |
| Scenarios.DonatedMaxReached | test/Crowdfunding.ts:154-163 | a 100000 donation gives the fixture with the first session open |
| Scenarios.VotedReached | test/Crowdfunding.ts:800-813 | a ballot of either choice on the open fixture gives the voted state |
| Scenarios.DeployedReadBack | test/Crowdfunding.ts:536-598 | the token is supported and the null address is not; the default project and its tranches read back; out-of-range ids are refused |
| Scenarios.CreateProjectRejections | test/Crowdfunding.ts:474-534 | each invalid creation request of the tests is refused with its expected error |
| Scenarios.DonationRejections | test/Crowdfunding.ts:658-682 | each invalid donation of the tests is refused with its expected error; with no allowance approved, an inactive project and a too-small amount are reported before the missing allowance |
| Scenarios.SmallDonationKeepsSessionClosed | test/Crowdfunding.ts:683-698 | a 20000 donation is recorded and held but opens no session, so voting, deliberation and withdrawal are refused |
| Scenarios.CoveringDonationOpensSession | test/Crowdfunding.ts:699-713 | funding that reaches the first budget opens its session with an empty tally |
| Scenarios.OpenSessionGuards | test/Crowdfunding.ts:783-849 | on an open session a non-donor's ballot and a deliberation without votes are refused |
| Scenarios.BallotRecorded | test/Crowdfunding.ts:795-813 | a yes or a no ballot is counted on its side and read back as cast; a second ballot is refused |
| Scenarios.DeliberatePositive | test/Crowdfunding.ts:851-863 | a 1-0 vote closes the first tranche, moves the tranche index to 1 and releases 50000 |
| Scenarios.DeliberateNegative | test/Crowdfunding.ts:892-903 | a 0-1 vote closes the session and moves nothing |
| Scenarios.DonatedMoreReached | test/Crowdfunding.ts:865-890 | a further 300000 donation gives the cascade test's state |
| Scenarios.DeliberatePositiveCascades | test/Crowdfunding.ts:865-890 | with 400000 funded, passing the first tranche opens the second one's session at once |
| Scenarios.TieHalfReached | test/Crowdfunding.ts:324-346 | the second donor's donation in the three-donor fixture |
| Scenarios.TieOpenReached | test/Crowdfunding.ts:324-346 | the third donor's donation in the three-donor fixture |
| Scenarios.TieVotedReached | test/Crowdfunding.ts:905-919 | a yes and a no ballot on the three-donor fixture |
| Scenarios.DeliberateTie | test/Crowdfunding.ts:905-919 | a 1-1 tie at 50% fails and nothing is released |
| Scenarios.FundedReached | test/Crowdfunding.ts:164-215 | the fund fixture: creation, a 200000 donation at 10%, a yes ballot, a passing deliberation |
| Scenarios.DonationAfterCompletion | test/Crowdfunding.ts:726-750 | the fee pool holds a tenth of the donation; after the last tranche a donation's net 90000 is added to both the funding and the withdrawable balance |
| Scenarios.NoSessionAfterCompletion | test/Crowdfunding.ts:726-750 | once every tranche has passed, a ballot and a deliberation are refused with `NotInVotingSession`; no test makes either call in that state |
| Scenarios.WithdrawFundsPaysBalance | test/Crowdfunding.ts:944-965 | the owner receives exactly the released 100000, and a second call has nothing to pay |
| Scenarios.WithdrawFeesPaysPool | test/Crowdfunding.ts:621-650 | the null address and an empty pool are refused; the pool of 20000 is paid and reads 0 afterwards |
| Scenarios.SettersOnDonated | test/Crowdfunding.ts:967-1071 | the setters' refusals and read-backs as in the tests |
| Scenarios.SecondProjectsReached | test/Crowdfunding.ts:226-317 | the second-project and different-token fixtures |
| Scenarios.MoveFundsRejections | test/Crowdfunding.ts:1141-1190 | each invalid move of the tests is refused with its expected error |
| Scenarios.MoveFundsMovesEverything | test/Crowdfunding.ts:1191-1235 | the whole 20000 moves, also out of an inactive project, which stays inactive |
| DoubleRelease.RunReaches | test/Crowdfunding.ts:1191-1211 | the ten-call run (two projects on one token, a release, a move, a second release) is accepted call by call |
| DoubleRelease.S10Insolvent | test/Crowdfunding.ts:1191-1211 | after that run the escrow holds 120000 of the token but owes 200000 to owners |
| DoubleRelease.MoveFundsBreaksSolvency | test/Crowdfunding.ts:1191-1211 | the reachable run breaks solvency: the first owner is paid 100000, and the second owner's withdrawal then cannot be paid |

## Left out

- Roles (`DEFAULT_ADMIN_ROLE`, `PAUSER_ROLE`, `UPDATER_ROLE`, the fee withdrawer) and `pause`/`unpause` are not modelled. Every entry point behaves as if called by an authorised account while the contract is unpaused. Only project ownership, which decides `withdrawFunds`, is modelled.
- The proxy upgrade and the initializer are out of scope.
- The ERC-20 token ledger is not modelled. A donor's allowance is an input of `DonateToProject`, and only the escrow's own holdings are tracked. A payout larger than the holdings fails with `LedgerTransferFailed`, which stands for the token transfer reverting.
- Events are not modelled.
- The metadata strings (name, association, team members, description) are not modelled.
- The vote cooldown is stored and can be updated, but nothing enforces it.
- The deployment scripts and the Hardhat configuration are out of scope.
- The scenarios read a `{from: addrN}` call as a call by addrN.
- `MinDonation` is 10000, chosen inside the bracket the tests pin: 5000 is refused and 20000 is accepted. The model does not prove its properties for other values of the minimum.
- Accounting.StepKeeps: the accounting invariant, and with it solvency, is not claimed across `withdrawFundsToOtherProject`. The move takes the source's whole funding, including what it has already released. `DoubleRelease` shows a reachable run that leaves the escrow owing more than it holds.
- Types.Fee: the function's own contract states only the bounds. The exact rounding bracket is stated by `Types.FeeIsRoundedDown`.
- `withdrawFundsToOtherProject` does not open the destination's vote session, even when the moved funding covers its current tranche. The tests do not show that case.
- `updateProjectVoteCooldown` accepts any value, zero included. The tests show no rejection.
- Integer width is not modelled. The contract uses fixed-width unsigned integers, and Solidity's checked arithmetic reverts on overflow; the model uses unbounded naturals and has no overflow revert.
- The model refuses a donation whose net credit would be zero with `AmountTooSmall`. With the minimum donation above zero this happens only at a 100% fee. The tests never show a 100% fee, so this case is unpinned and the refusal is the model's own choice.
- Crowdfunding.NewProject: a created project stores each tranche's budget with a closed, zero-tally session, whatever session the caller passed. The tests and the deployment script pass only closed sessions, so storing tranches verbatim and closing them agree on every shown input. The structure invariant (only the current tranche can be in session) and the backing invariant (an open session is covered by the funding) hold at creation because of this closing. If the contract stored a pre-opened session as given, a creator could pass tranche 0 already in session with one yes vote, and `endThresholdVoting` would release its budget against zero funding. The model does not cover that case.
- Crowdfunding.VoteForThreshold: once every tranche has passed there is no current session, and the model refuses a ballot with `NotInVotingSession`. No test votes in that state, so this error is the model's own choice; the contract might instead fail differently when it reads a tranche past the end.
- Crowdfunding.EndThresholdVoting: likewise, once every tranche has passed, the model refuses a deliberation with `NotInVotingSession`. No test shows that call, so this error is the model's own choice.
