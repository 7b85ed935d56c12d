/** The threshold ledger and the vote arithmetic: the ordered budget tranches of a
    project, their vote sessions, when funding covers a tranche, and when a tally passes. */
module Thresholds {
  import opened Types

  /** The governance sub-state of one tranche. */
  datatype VoteSession = VoteSession(isVotingInSession: bool, positiveVotes: nat, negativeVotes: nat)
  {
    function Total(): nat { positiveVotes + negativeVotes }
  }

  const ClosedSession := VoteSession(false, 0, 0)
  const FreshSession := VoteSession(true, 0, 0)

  /** One budget tranche of a project. */
  datatype Threshold = Threshold(budget: nat, voteSession: VoteSession)

  /** The sum of the budgets of the first `n` tranches. */
  function CumulativeBudget(ths: seq<Threshold>, n: nat): nat
    requires n <= |ths|
  {
    if n == 0 then 0 else CumulativeBudget(ths, n - 1) + ths[n - 1].budget
  }

  /** Funding `amount` covers tranche `i` when it reaches the running sum of the budgets
      of tranches 0..i. This is the single place where that reading is fixed. */
  predicate Covers(amount: nat, ths: seq<Threshold>, i: nat): (b: bool)
    requires i < |ths|
    ensures b ==> ths[i].budget <= amount
    ensures b && 0 < i ==> CumulativeBudget(ths, i) <= amount
  {
    CumulativeBudget(ths, i + 1) <= amount
  }

  /** Two tranche lists with the same length and the same budgets, whatever their sessions. */
  predicate SameBudgets(a: seq<Threshold>, b: seq<Threshold>)
  {
    |a| == |b| && forall k :: 0 <= k < |a| ==> a[k].budget == b[k].budget
  }

  /** Sessions never change a running sum of budgets. */
  lemma {:induction false} CumulativeBudgetOfSameBudgets(a: seq<Threshold>, b: seq<Threshold>, n: nat)
    requires SameBudgets(a, b)
    requires n <= |a|
    ensures CumulativeBudget(a, n) == CumulativeBudget(b, n)
  {
    if n > 0 {
      CumulativeBudgetOfSameBudgets(a, b, n - 1);
    }
  }

  /** A running sum never decreases as more tranches are included. */
  lemma {:induction false} CumulativeBudgetMonotone(ths: seq<Threshold>, m: nat, n: nat)
    requires m <= n <= |ths|
    ensures CumulativeBudget(ths, m) <= CumulativeBudget(ths, n)
  {
    if m < n {
      CumulativeBudgetMonotone(ths, m, n - 1);
    }
  }

  /** The tranche list with the session of tranche `i` replaced by `v`. */
  function WithSession(ths: seq<Threshold>, i: nat, v: VoteSession): (r: seq<Threshold>)
    requires i < |ths|
    ensures SameBudgets(ths, r)
    ensures r[i].voteSession == v
    ensures forall k :: 0 <= k < |ths| && k != i ==> r[k] == ths[k]
  {
    ths[i := Threshold(ths[i].budget, v)]
  }

  /** The tranches as stored by `createProject`: the given budgets, every session closed. */
  function Closed(ths: seq<Threshold>): (r: seq<Threshold>)
    ensures SameBudgets(ths, r)
    ensures forall k :: 0 <= k < |r| ==> r[k].voteSession == ClosedSession
  {
    seq(|ths|, k requires 0 <= k < |ths| => Threshold(ths[k].budget, ClosedSession))
  }

  /** The deliberation rule: the share of positive ballots, in basis points rounded down,
      must be strictly above the required percentage. */
  predicate Passes(v: VoteSession, required: Bps): (b: bool)
    requires v.Total() > 0
    ensures b ==> v.positiveVotes > 0
    ensures b ==> v.positiveVotes * MaxBps > required * v.Total()
  {
    DivAtLeast(v.positiveVotes * MaxBps, v.Total(), required + 1);
    v.positiveVotes * MaxBps / v.Total() > required
  }

  /** `x / t >= k` is the same as `x >= k * t` for a positive divisor. */
  lemma DivAtLeast(x: nat, t: nat, k: nat)
    requires t > 0
    ensures x / t >= k <==> x >= k * t
  {
    var q, r := x / t, x % t;
    assert x == q * t + r && 0 <= r < t;
    if q >= k {
      assert q * t >= k * t by {
        assert (q - k) * t >= 0;
      }
    } else {
      assert q + 1 <= k;
      assert (q + 1) * t <= k * t by {
        assert (k - (q + 1)) * t >= 0;
      }
    }
  }

  /** The rounded ratio test is the same as a comparison without division:
      the positive ballots times 10000 reach (required + 1) times the tally. */
  lemma PassesIffCrossMultiplied(v: VoteSession, required: Bps)
    requires v.Total() > 0
    ensures Passes(v, required) <==> v.positiveVotes * MaxBps >= (required + 1) * v.Total()
  {
    DivAtLeast(v.positiveVotes * MaxBps, v.Total(), required + 1);
  }

  /** Ties do not pass at a required percentage of 5000: 1-1, 2-2, ... all fail. */
  lemma TieFailsAtHalf(v: VoteSession)
    requires v.positiveVotes == v.negativeVotes > 0
    ensures !Passes(v, 5000)
  {
    PassesIffCrossMultiplied(v, 5000);
  }

  /** A unanimous positive tally passes whenever the requirement is below 100%. */
  lemma UnanimousPasses(v: VoteSession, required: Bps)
    requires v.positiveVotes > 0 && v.negativeVotes == 0
    requires required < MaxBps
    ensures Passes(v, required)
  {
    PassesIffCrossMultiplied(v, required);
    assert v.Total() == v.positiveVotes;
    assert v.positiveVotes * MaxBps - (required + 1) * v.positiveVotes == (MaxBps - required - 1) * v.positiveVotes;
  }

  /** With no positive ballot a tally never passes. */
  lemma NoPositiveFails(v: VoteSession, required: Bps)
    requires v.positiveVotes == 0 && v.negativeVotes > 0
    ensures !Passes(v, required)
  {
  }

  /** One more positive ballot never turns a pass into a failure. */
  lemma PassesMonotone(v: VoteSession, required: Bps)
    requires v.Total() > 0
    requires Passes(v, required)
    ensures Passes(v.(positiveVotes := v.positiveVotes + 1), required)
  {
    var w := v.(positiveVotes := v.positiveVotes + 1);
    PassesIffCrossMultiplied(v, required);
    PassesIffCrossMultiplied(w, required);
    assert (required + 1) * w.Total() == (required + 1) * v.Total() + (required + 1);
  }
}
