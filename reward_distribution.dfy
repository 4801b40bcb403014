/**
  * The reward ledger: coordinators open a reward batch per task, allocate per-provider rewards
  * into it (credited to each provider's pending balance), and the batch is settled from the
  * ledger's escrow account after a settlement period — by root for one batch, in which case a
  * failed payout aborts the whole settlement, or by anyone for every due batch, in which case
  * failed payouts are skipped. Providers may also claim their pending balance directly.
  */
module RewardDistribution {
  import opened Frame
  import opened Sums
  import opened Currency

  const MAX_PROVIDERS_PER_BATCH: nat := 1000
  const MINIMUM_REWARD: nat := GLIN / 100
  const SETTLEMENT_PERIOD: nat := 100
  const MAX_QUALITY_SCORE: nat := 1000
  /** One whole in parts per million (`Permill::one()`). */
  const PERMILL: nat := 1_000_000
  /** `PlatformFeePercentage`: two percent, in parts per million. */
  const PLATFORM_FEE: nat := 20_000
  /** The ledger's escrow account, derived from its PalletId. */
  const ESCROW: AccountId := PalletAccount("py/rewrd")

  datatype RewardBatch = RewardBatch(
    taskId: Hash,
    totalBounty: nat,
    coordinator: AccountId,
    createdAt: nat,
    settled: bool,
    merkleRoot: Hash)

  datatype ProviderReward = ProviderReward(
    provider: AccountId,
    amount: nat,
    gradientsContributed: nat,
    qualityScore: nat,
    hardwareMultiplier: nat)

  datatype RewardError =
    | BatchNotFound | BatchAlreadySettled | NoRewardsToClaim | TooManyProviders | InvalidRewardAmount
    | InsufficientEscrowBalance | NotAuthorized | BatchAlreadyExists | ProviderNotInBatch
    | InvalidQualityScore | SettlementTooEarly

  /** The entries of one batch, keyed by provider. */
  type Entries = map<AccountId, ProviderReward>

  /** Pending balances; an absent provider has nothing pending. */
  type Pending = map<AccountId, nat>

  function PendingOf(pending: Pending, a: AccountId): nat
  {
    if a in pending then pending[a] else 0
  }

  /** The entries stored for batch `id`; a batch nobody submitted to has none. */
  function EntriesIn(batchRewards: map<Hash, Entries>, id: Hash): Entries
  {
    if id in batchRewards then batchRewards[id] else map[]
  }

  /** The reward allocated to `a` in `entries`, or zero. */
  function AmountOf(entries: Entries, a: AccountId): nat
  {
    if a in entries then entries[a].amount else 0
  }

  // ---------------------------------------------------------------------------------------
  // Permill arithmetic and the platform fee
  // ---------------------------------------------------------------------------------------

  lemma MulDivBound(parts: nat, x: nat, d: nat)
    requires 0 < d && parts <= d
    ensures parts * x / d <= x
  {
    MulMonotone(parts, d, x);
  }

  lemma MulMonotone(a: nat, b: nat, c: nat)
    ensures a <= b ==> a * c <= b * c
  {
  }

  /** Dividing by 100 after multiplying: the quotient times 100 never exceeds the product. */
  lemma HundredthBound(product: nat, bound: nat)
    requires product <= bound
    ensures 100 * (product / 100) <= bound
  {
  }

  /** `Permill::from_rational(p, q)` in parts per million: `p / q` capped at one, rounded down. */
  function PermillFromRational(p: nat, q: nat): (r: nat)
    requires 0 < q
    ensures r <= PERMILL
    ensures p <= q ==> r * q <= p * PERMILL < (r + 1) * q
    ensures q <= p ==> r == PERMILL
    ensures p == 0 ==> r == 0
  {
    if q <= p then PERMILL else MulDivBound(p, PERMILL, q); p * PERMILL / q
  }

  /** `parts * x` for a Permill of `parts` parts per million, rounded down. */
  function PermillMul(parts: nat, x: nat): (r: nat)
    requires parts <= PERMILL
    ensures r <= x
    ensures r * PERMILL <= parts * x < (r + 1) * PERMILL
    ensures parts == 0 || x == 0 ==> r == 0
  {
    MulDivBound(parts, x, PERMILL);
    parts * x / PERMILL
  }

  /**
    * The platform fee on a reward, `PlatformFeePercentage * amount`: two percent, rounded down,
    * computed as a fiftieth (see `FeeIsPlatformPermill`).
    */
  function FeeOf(amount: nat): (r: nat)
    ensures r <= amount
    ensures 50 * r <= amount < 50 * (r + 1)
  {
    amount / 50
  }

  /** The fee is the platform's Permill applied to the amount. */
  lemma FeeIsPlatformPermill(amount: nat)
    ensures FeeOf(amount) == PermillMul(PLATFORM_FEE, amount)
  {
    var q, r := amount / 50, amount % 50;
    assert amount == 50 * q + r;
    assert PLATFORM_FEE * amount == PERMILL * q + 20_000 * r;
    assert 20_000 * r < PERMILL;
  }

  /** What a provider receives of a reward once the platform fee is withheld. */
  function NetOf(amount: nat): (r: nat)
    ensures r + FeeOf(amount) == amount
    ensures 49 * amount <= 50 * r
  {
    amount - FeeOf(amount)
  }

  /**
    * `calculate_reward`: the bounty share proportional to the gradients contributed, scaled by
    * the quality score (out of 1000) and by the hardware multiplier (100 = 1.0x).
    */
  function CalculateReward(baseBounty: nat, gradients: nat, totalGradients: nat, qualityScore: nat, hardwareMultiplier: nat): (r: nat)
    ensures totalGradients == 0 || gradients == 0 || qualityScore == 0 || hardwareMultiplier == 0 ==> r == 0
    ensures 100 * r <= baseBounty * hardwareMultiplier
    ensures hardwareMultiplier <= 100 ==> r <= baseBounty
  {
    if totalGradients == 0 then 0
    else
      var share := QualityShare(baseBounty, gradients, totalGradients, qualityScore);
      ScaledByHardware(share, baseBounty, hardwareMultiplier);
      SaturatingMul(share, hardwareMultiplier, U128_MAX) / 100
  }

  /**
    * The bounty share of `calculate_reward` before the hardware multiplier: the contribution
    * ratio times the bounty, then the quality ratio (out of 1000) times that.
    */
  function QualityShare(baseBounty: nat, gradients: nat, totalGradients: nat, qualityScore: nat): (r: nat)
    requires 0 < totalGradients
    ensures r <= baseBounty
    ensures gradients == 0 || qualityScore == 0 ==> r == 0
  {
    var contribution := PermillFromRational(gradients, totalGradients);
    var baseReward := PermillMul(contribution, baseBounty);
    PermillMul(PermillFromRational(qualityScore, 1000), baseReward)
  }

  /** The hardware scaling of a share of the bounty, `share * multiplier / 100`, saturating. */
  lemma ScaledByHardware(share: nat, bounty: nat, multiplier: nat)
    requires share <= bounty
    ensures share == 0 || multiplier == 0 ==> SaturatingMul(share, multiplier, U128_MAX) == 0
    ensures 100 * (SaturatingMul(share, multiplier, U128_MAX) / 100) <= bounty * multiplier
    ensures multiplier <= 100 ==> SaturatingMul(share, multiplier, U128_MAX) / 100 <= bounty
  {
    var product := SaturatingMul(share, multiplier, U128_MAX);
    MulMonotone(share, bounty, multiplier);
    assert product <= bounty * multiplier;
    HundredthBound(product, bounty * multiplier);
    if multiplier <= 100 {
      MulMonotone(multiplier, 100, bounty);
      assert product <= 100 * bounty;
    }
  }

  /** A provider that computed every gradient at full quality on 1.0x hardware earns the whole bounty. */
  lemma FullContributionEarnsBounty(baseBounty: nat, totalGradients: nat)
    requires 0 < totalGradients && 100 * baseBounty <= U128_MAX
    ensures CalculateReward(baseBounty, totalGradients, totalGradients, MAX_QUALITY_SCORE, 100) == baseBounty
  {
    assert PermillFromRational(totalGradients, totalGradients) == PERMILL;
    assert PermillMul(PERMILL, baseBounty) == baseBounty;
  }

  /** Integer division by a positive constant keeps the order of its dividends. */
  lemma DivMonotone(a: nat, b: nat, d: nat)
    requires 0 < d && a <= b
    ensures a / d <= b / d
  {
    var qa, qb := a / d, b / d;
    var above := qb + 1;
    if qb < qa {
      MulMonotone(above, qa, d);
      assert false;
    }
  }

  /** `Permill::from_rational(p, q)` grows with `p`. */
  lemma PermillFromRationalMonotone(p1: nat, p2: nat, q: nat)
    requires 0 < q && p1 <= p2
    ensures PermillFromRational(p1, q) <= PermillFromRational(p2, q)
  {
    if p2 < q {
      MulMonotone(p1, p2, PERMILL);
      DivMonotone(p1 * PERMILL, p2 * PERMILL, q);
    }
  }

  /** A Permill product grows with both the Permill and the value. */
  lemma PermillMulMonotone(parts1: nat, parts2: nat, x1: nat, x2: nat)
    requires parts1 <= parts2 <= PERMILL && x1 <= x2
    ensures PermillMul(parts1, x1) <= PermillMul(parts2, x2)
  {
    MulMonotone(parts1, parts2, x1);
    MulMonotone(x1, x2, parts2);
    DivMonotone(parts1 * x1, parts2 * x2, PERMILL);
  }

  /** The saturating hardware scaling grows with the share and with the multiplier. */
  lemma ScaledMonotone(share1: nat, share2: nat, m1: nat, m2: nat)
    requires share1 <= share2 && m1 <= m2
    ensures SaturatingMul(share1, m1, U128_MAX) / 100 <= SaturatingMul(share2, m2, U128_MAX) / 100
  {
    MulMonotone(share1, share2, m1);
    MulMonotone(m1, m2, share2);
    DivMonotone(SaturatingMul(share1, m1, U128_MAX), SaturatingMul(share2, m2, U128_MAX), 100);
  }

  /** The quality ratio out of 1000 is exact in parts per million: a thousand parts per point. */
  lemma QualityPermill(qualityScore: nat)
    ensures PermillFromRational(qualityScore, 1000) == 1000 * Min(qualityScore, 1000)
  {
  }

  /** The contribution ratio is the exact ratio of the gradients, capped at one, rounded down. */
  lemma ContributionBound(gradients: nat, totalGradients: nat)
    requires 0 < totalGradients
    ensures PermillFromRational(gradients, totalGradients) * totalGradients <= Min(gradients, totalGradients) * PERMILL
    ensures Min(gradients, totalGradients) * PERMILL < (PermillFromRational(gradients, totalGradients) + 1) * totalGradients
  {
  }

  /** The three rounding-down steps of the share, chained: each only loses value. */
  lemma ShareChain(qa: nat, b: nat, c: nat, t: nat, g: nat, q: nat, bounty: nat)
    requires 1000 * qa <= q * b && b * PERMILL <= c * bounty && c * t <= g * PERMILL
    ensures 1000 * qa * t <= bounty * g * q
  {
    MulMonotone(b * PERMILL, c * bounty, t);
    MulMonotone(c * t, g * PERMILL, bounty);
    assert b * t * PERMILL <= g * bounty * PERMILL;
    MulMonotone(1000 * qa, q * b, t);
    MulMonotone(b * t, g * bounty, q);
  }

  /** The contribution and bounty truncations from below: `bounty * g` falls short by less than `t` units and `bounty * t / PERMILL`. */
  lemma ContributionLowerStep(b: nat, c: nat, t: nat, g: nat, bounty: nat)
    requires 0 < t && g * PERMILL < (c + 1) * t && c * bounty < (b + 1) * PERMILL
    ensures bounty * g * PERMILL < (b + 1) * t * PERMILL + bounty * t
  {
    MulMonotone(g * PERMILL + 1, (c + 1) * t, bounty);
    assert (g * PERMILL + 1) * bounty == bounty * g * PERMILL + bounty;
    assert (c + 1) * t * bounty == c * bounty * t + bounty * t;
    MulMonotone(c * bounty + 1, (b + 1) * PERMILL, t);
    assert (c * bounty + 1) * t == c * bounty * t + t;
  }

  /** The quality truncation from below, on top of the contribution step. */
  lemma QualityLowerStep(qa: nat, b: nat, t: nat, q: nat, lhs: nat, bounty: nat)
    requires 0 < t && q <= 1000 && q * b < 1000 * (qa + 1)
    requires lhs < (b + 1) * t * PERMILL + bounty * t
    ensures lhs * q < (1000 * qa + 2000) * t * PERMILL + 1000 * bounty * t
  {
    MulMonotone(lhs, (b + 1) * t * PERMILL + bounty * t, q);
    assert ((b + 1) * t * PERMILL + bounty * t) * q == (q * b + q) * (t * PERMILL) + q * (bounty * t);
    MulMonotone(q * b + q, 1000 * qa + 1999, t * PERMILL);
    MulMonotone(q, 1000, bounty * t);
    assert (1000 * qa + 1999) * (t * PERMILL) < (1000 * qa + 2000) * t * PERMILL;
  }

  /** The same three steps from below: each loses less than one unit of its own result. */
  lemma ShareLowerChain(qa: nat, b: nat, c: nat, t: nat, g: nat, q: nat, bounty: nat)
    requires 0 < t && q <= 1000
    requires q * b < 1000 * (qa + 1) && c * bounty < (b + 1) * PERMILL && g * PERMILL < (c + 1) * t
    ensures bounty * g * q * 1000 < t * (1_000_000 * qa + 2_000_000 + bounty)
  {
    ContributionLowerStep(b, c, t, g, bounty);
    QualityLowerStep(qa, b, t, q, bounty * g * PERMILL, bounty);
    LowerRegroup(bounty * g, q, qa, t, bounty);
  }

  /** Both sides of the lower share bound, regrouped to divide out a thousand. */
  lemma LowerRegroup(x: nat, q: nat, qa: nat, t: nat, bounty: nat)
    ensures x * PERMILL * q == (x * q * 1000) * 1000
    ensures (1000 * qa + 2000) * t * PERMILL + 1000 * bounty * t == (t * (1_000_000 * qa + 2_000_000 + bounty)) * 1000
  {
  }

  /** The hardware step on top of the share bound. */
  lemma HardwareChain(r: nat, share: nat, m: nat, t: nat, exact: nat)
    requires 100 * r <= share * m && 1000 * share * t <= exact
    ensures 100_000 * r * t <= exact * m
  {
    MulMonotone(100 * r, share * m, 1000 * t);
    MulMonotone(1000 * share * t, exact, m);
  }

  /**
    * The share before the hardware multiplier is at most the exact proportion of the bounty:
    * `baseBounty * gradients / totalGradients * qualityScore / 1000`, with the gradients capped at
    * the total and the score capped at 1000.
    */
  lemma QualityShareProportional(baseBounty: nat, gradients: nat, totalGradients: nat, qualityScore: nat)
    requires 0 < totalGradients
    ensures 1000 * QualityShare(baseBounty, gradients, totalGradients, qualityScore) * totalGradients
            <= baseBounty * Min(gradients, totalGradients) * Min(qualityScore, 1000)
  {
    var c := PermillFromRational(gradients, totalGradients);
    var b := PermillMul(c, baseBounty);
    var qa := PermillMul(PermillFromRational(qualityScore, 1000), b);
    QualityPermill(qualityScore);
    ContributionBound(gradients, totalGradients);
    ShareChain(qa, b, c, totalGradients, Min(gradients, totalGradients), Min(qualityScore, 1000), baseBounty);
  }

  /**
    * The share before the hardware multiplier falls short of the exact proportion of the bounty
    * by less than two units plus one millionth of the bounty, what the three truncations lose.
    */
  lemma QualityShareWithinRounding(baseBounty: nat, gradients: nat, totalGradients: nat, qualityScore: nat)
    requires 0 < totalGradients
    ensures baseBounty * Min(gradients, totalGradients) * Min(qualityScore, 1000) * 1000
            < totalGradients * (1_000_000 * QualityShare(baseBounty, gradients, totalGradients, qualityScore) + 2_000_000 + baseBounty)
  {
    var c := PermillFromRational(gradients, totalGradients);
    var b := PermillMul(c, baseBounty);
    var qa := PermillMul(PermillFromRational(qualityScore, 1000), b);
    QualityPermill(qualityScore);
    ContributionBound(gradients, totalGradients);
    ShareLowerChain(qa, b, c, totalGradients, Min(gradients, totalGradients), Min(qualityScore, 1000), baseBounty);
  }

  /**
    * `calculate_reward` is at most the exact proportional reward:
    * `baseBounty * gradients / totalGradients * qualityScore / 1000 * hardwareMultiplier / 100`,
    * with the gradients capped at the total and the score capped at 1000.
    */
  lemma CalculateRewardProportional(baseBounty: nat, gradients: nat, totalGradients: nat, qualityScore: nat, hardwareMultiplier: nat)
    requires 0 < totalGradients
    ensures 100_000 * CalculateReward(baseBounty, gradients, totalGradients, qualityScore, hardwareMultiplier) * totalGradients
            <= baseBounty * Min(gradients, totalGradients) * Min(qualityScore, 1000) * hardwareMultiplier
  {
    var share := QualityShare(baseBounty, gradients, totalGradients, qualityScore);
    QualityShareProportional(baseBounty, gradients, totalGradients, qualityScore);
    HardwareChain(CalculateReward(baseBounty, gradients, totalGradients, qualityScore, hardwareMultiplier), share,
                  hardwareMultiplier, totalGradients,
                  baseBounty * Min(gradients, totalGradients) * Min(qualityScore, 1000));
  }

  /** The hardware step on top of the lower share bound, when the product does not saturate. */
  lemma HardwareLowerChain(r: nat, share: nat, m: nat, t: nat, exact: nat, bounty: nat)
    requires 0 < t && share * m < 100 * (r + 1) && exact * 1000 < t * (1_000_000 * share + 2_000_000 + bounty)
    ensures exact * m * 1000 < t * (100_000_000 * (r + 1) + (2_000_000 + bounty) * m)
  {
    var slack := 2_000_000 + bounty;
    assert exact * 1000 < t * (1_000_000 * share + slack);
    if m == 0 {
      MulMonotone(1, t, 100_000_000 * (r + 1));
    } else {
      MulMonotone(exact * 1000 + 1, t * (1_000_000 * share + slack), m);
      MulMonotone(1_000_000 * share * m, 100_000_000 * (r + 1), t);
      assert exact * 1000 * m < t * (1_000_000 * share * m + slack * m);
    }
  }

  /**
    * Unless `baseBounty * hardwareMultiplier` overflows 128 bits, `calculate_reward` falls short of
    * the exact proportional reward only by what the truncations lose: one unit of the final division,
    * and two units plus one millionth of the bounty of the share, scaled by the multiplier.
    */
  lemma CalculateRewardWithinRounding(baseBounty: nat, gradients: nat, totalGradients: nat, qualityScore: nat, hardwareMultiplier: nat)
    requires 0 < totalGradients && baseBounty * hardwareMultiplier <= U128_MAX
    ensures baseBounty * Min(gradients, totalGradients) * Min(qualityScore, 1000) * hardwareMultiplier * 1000
            < totalGradients * (100_000_000 * (CalculateReward(baseBounty, gradients, totalGradients, qualityScore, hardwareMultiplier) + 1)
                                + (2_000_000 + baseBounty) * hardwareMultiplier)
  {
    var exact: nat := baseBounty * Min(gradients, totalGradients) * Min(qualityScore, 1000);
    var share := QualityShare(baseBounty, gradients, totalGradients, qualityScore);
    MulMonotone(share, baseBounty, hardwareMultiplier);
    var product := share * hardwareMultiplier;
    assert SaturatingMul(share, hardwareMultiplier, U128_MAX) == product;
    var r := CalculateReward(baseBounty, gradients, totalGradients, qualityScore, hardwareMultiplier);
    assert r == product / 100;
    assert product < 100 * (r + 1);
    QualityShareWithinRounding(baseBounty, gradients, totalGradients, qualityScore);
    HardwareLowerChain(r, share, hardwareMultiplier, totalGradients,
                       exact, baseBounty);
  }

  /** More gradients never earn less. */
  lemma CalculateRewardMonotoneInGradients(baseBounty: nat, g1: nat, g2: nat, totalGradients: nat,
                                           qualityScore: nat, hardwareMultiplier: nat)
    requires g1 <= g2
    ensures CalculateReward(baseBounty, g1, totalGradients, qualityScore, hardwareMultiplier)
            <= CalculateReward(baseBounty, g2, totalGradients, qualityScore, hardwareMultiplier)
  {
    if 0 < totalGradients {
      PermillFromRationalMonotone(g1, g2, totalGradients);
      var c1, c2 := PermillFromRational(g1, totalGradients), PermillFromRational(g2, totalGradients);
      PermillMulMonotone(c1, c2, baseBounty, baseBounty);
      var qc := PermillFromRational(qualityScore, 1000);
      PermillMulMonotone(qc, qc, PermillMul(c1, baseBounty), PermillMul(c2, baseBounty));
      ScaledMonotone(QualityShare(baseBounty, g1, totalGradients, qualityScore),
                     QualityShare(baseBounty, g2, totalGradients, qualityScore), hardwareMultiplier, hardwareMultiplier);
    }
  }

  /** A higher quality score never earns less. */
  lemma CalculateRewardMonotoneInQuality(baseBounty: nat, gradients: nat, totalGradients: nat,
                                         q1: nat, q2: nat, hardwareMultiplier: nat)
    requires q1 <= q2
    ensures CalculateReward(baseBounty, gradients, totalGradients, q1, hardwareMultiplier)
            <= CalculateReward(baseBounty, gradients, totalGradients, q2, hardwareMultiplier)
  {
    if 0 < totalGradients {
      PermillFromRationalMonotone(q1, q2, 1000);
      var b := PermillMul(PermillFromRational(gradients, totalGradients), baseBounty);
      PermillMulMonotone(PermillFromRational(q1, 1000), PermillFromRational(q2, 1000), b, b);
      ScaledMonotone(QualityShare(baseBounty, gradients, totalGradients, q1),
                     QualityShare(baseBounty, gradients, totalGradients, q2), hardwareMultiplier, hardwareMultiplier);
    }
  }

  /** A larger hardware multiplier never earns less. */
  lemma CalculateRewardMonotoneInHardware(baseBounty: nat, gradients: nat, totalGradients: nat,
                                          qualityScore: nat, m1: nat, m2: nat)
    requires m1 <= m2
    ensures CalculateReward(baseBounty, gradients, totalGradients, qualityScore, m1)
            <= CalculateReward(baseBounty, gradients, totalGradients, qualityScore, m2)
  {
    if 0 < totalGradients {
      var share := QualityShare(baseBounty, gradients, totalGradients, qualityScore);
      ScaledMonotone(share, share, m1, m2);
    }
  }

  // ---------------------------------------------------------------------------------------
  // Submissions: validation, running total, stored entries and pending credits
  // ---------------------------------------------------------------------------------------

  /** Why one submitted entry is refused: the amount is checked before the quality score. */
  function EntryError(r: ProviderReward): (e: Option<RewardError>)
    ensures e.None? <==> MINIMUM_REWARD <= r.amount && r.qualityScore <= MAX_QUALITY_SCORE
    ensures e.Some? ==> e.value == if r.amount < MINIMUM_REWARD then InvalidRewardAmount else InvalidQualityScore
  {
    if r.amount < MINIMUM_REWARD then Some(InvalidRewardAmount)
    else if MAX_QUALITY_SCORE < r.qualityScore then Some(InvalidQualityScore)
    else None
  }

  /** The error of the first refused entry of a submission, if any. */
  function FirstInvalid(rs: seq<ProviderReward>): (e: Option<RewardError>)
    ensures e.None? <==> forall i :: 0 <= i < |rs| ==> EntryError(rs[i]).None?
  {
    if |rs| == 0 then None
    else if EntryError(rs[0]).Some? then EntryError(rs[0])
    else
      var e := FirstInvalid(rs[1..]);
      assert forall i :: 1 <= i < |rs| ==> rs[i] == rs[1..][i - 1];
      e
  }

  /** The first refused entry decides the error, whatever follows it. */
  lemma {:induction false} FirstInvalidAt(rs: seq<ProviderReward>, i: nat)
    requires i < |rs| && EntryError(rs[i]).Some?
    requires forall j :: 0 <= j < i ==> EntryError(rs[j]).None?
    ensures FirstInvalid(rs) == EntryError(rs[i])
    decreases i
  {
    if 0 < i {
      assert rs[1..][i - 1] == rs[i];
      assert forall j :: 0 <= j < i - 1 ==> rs[1..][j] == rs[j + 1];
      FirstInvalidAt(rs[1..], i - 1);
    }
  }

  /** The exact sum of the submitted amounts. */
  function RewardSum(rs: seq<ProviderReward>): nat
  {
    if |rs| == 0 then 0 else RewardSum(rs[..|rs| - 1]) + rs[|rs| - 1].amount
  }

  /** The running total `submit_rewards` keeps: saturating additions in submission order. */
  function SaturatingRewardSum(rs: seq<ProviderReward>): (r: nat)
    ensures r == Min(RewardSum(rs), U128_MAX)
  {
    if |rs| == 0 then 0 else SaturatingAdd(SaturatingRewardSum(rs[..|rs| - 1]), rs[|rs| - 1].amount, U128_MAX)
  }

  /** The providers a submission names. */
  function ProvidersOf(rs: seq<ProviderReward>): set<AccountId>
  {
    set i | 0 <= i < |rs| :: rs[i].provider
  }

  /** The amount a submission allocates to `a`, over all of its entries. */
  function AmountFor(rs: seq<ProviderReward>, a: AccountId): nat
  {
    if |rs| == 0 then 0
    else AmountFor(rs[..|rs| - 1], a) + (if rs[|rs| - 1].provider == a then rs[|rs| - 1].amount else 0)
  }

  /** The batch entries after storing a submission one entry at a time, in order. */
  function Record(entries: Entries, rs: seq<ProviderReward>): (r: Entries)
    ensures r.Keys == entries.Keys + ProvidersOf(rs)
  {
    if |rs| == 0 then entries
    else
      var last := rs[|rs| - 1];
      var prefix := rs[..|rs| - 1];
      ProvidersOfSnoc(rs);
      Record(entries, prefix)[last.provider := last]
  }

  lemma ProvidersOfSnoc(rs: seq<ProviderReward>)
    requires 0 < |rs|
    ensures ProvidersOf(rs) == ProvidersOf(rs[..|rs| - 1]) + {rs[|rs| - 1].provider}
  {
    var prefix := rs[..|rs| - 1];
    assert forall i :: 0 <= i < |prefix| ==> prefix[i] == rs[i];
  }

  /** Providers a submission does not name keep the entry they had. */
  lemma {:induction false} RecordKeepsOthers(entries: Entries, rs: seq<ProviderReward>, a: AccountId)
    requires a in entries && a !in ProvidersOf(rs)
    ensures Record(entries, rs)[a] == entries[a]
  {
    if 0 < |rs| {
      ProvidersOfSnoc(rs);
      RecordKeepsOthers(entries, rs[..|rs| - 1], a);
    }
  }

  /** A named provider ends up with its last entry of the submission: later entries overwrite earlier ones. */
  lemma {:induction false} RecordLastWins(entries: Entries, rs: seq<ProviderReward>, i: nat)
    requires i < |rs|
    requires forall j :: i < j < |rs| ==> rs[j].provider != rs[i].provider
    ensures Record(entries, rs)[rs[i].provider] == rs[i]
  {
    var n := |rs| - 1;
    if i < n {
      var prefix := rs[..n];
      assert prefix[i] == rs[i];
      assert forall j :: i < j < |prefix| ==> prefix[j] == rs[j];
      RecordLastWins(entries, prefix, i);
    }
  }

  /** Stored entries stay keyed by their own provider. */
  lemma {:induction false} RecordKeyedByProvider(entries: Entries, rs: seq<ProviderReward>)
    requires forall a :: a in entries ==> entries[a].provider == a
    ensures forall a :: a in Record(entries, rs) ==> Record(entries, rs)[a].provider == a
  {
    if 0 < |rs| {
      RecordKeyedByProvider(entries, rs[..|rs| - 1]);
    }
  }

  /**
    * The pending balances after crediting a submission one entry at a time. Saturating
    * additions of naturals commute, so each provider ends up credited with its total, capped.
    */
  function Credit(pending: Pending, rs: seq<ProviderReward>): (r: Pending)
    requires forall a :: a in pending ==> pending[a] <= U128_MAX
    ensures forall a :: a in r ==> r[a] <= U128_MAX
    ensures r.Keys == pending.Keys + ProvidersOf(rs)
    ensures forall a :: PendingOf(r, a) == Min(PendingOf(pending, a) + AmountFor(rs, a), U128_MAX)
  {
    if |rs| == 0 then pending
    else
      var last := rs[|rs| - 1];
      var prefix := rs[..|rs| - 1];
      assert ProvidersOf(rs) == ProvidersOf(prefix) + {last.provider} by {
        assert forall i :: 0 <= i < |prefix| ==> prefix[i] == rs[i];
      }
      var before := Credit(pending, prefix);
      before[last.provider := SaturatingAdd(PendingOf(before, last.provider), last.amount, U128_MAX)]
  }

  /** A submission accepted against a bounty below the u128 ceiling allocates at most the bounty in total. */
  lemma AcceptedWithinBounty(rs: seq<ProviderReward>, bounty: nat)
    requires SaturatingRewardSum(rs) <= bounty < U128_MAX
    ensures RewardSum(rs) <= bounty
  {
  }

  // ---------------------------------------------------------------------------------------
  // Settlement payouts
  // ---------------------------------------------------------------------------------------

  /** What settling `entries` pays `a` out of the escrow: its net reward, unless `a` is the escrow. */
  function NetPaid(entries: Entries, a: AccountId): nat
  {
    if a in entries && a != ESCROW then NetOf(entries[a].amount) else 0
  }

  ghost function NetPaidF(entries: Entries): AccountId -> nat
  {
    a => NetPaid(entries, a)
  }

  ghost function FeeF(entries: Entries): AccountId -> nat
  {
    a => FeeOf(AmountOf(entries, a))
  }

  ghost function NetF(entries: Entries): AccountId -> nat
  {
    a => NetOf(AmountOf(entries, a))
  }

  /** The total that settling `entries` moves out of the escrow. */
  ghost function EscrowOutflow(entries: Entries): nat
  {
    SumOf(entries.Keys, NetPaidF(entries))
  }

  /** After paying the entries in `done`, every account but the escrow has gained exactly its net reward. */
  ghost predicate PaidExactly(cur: Balances, bal: Balances, entries: Entries, done: set<AccountId>)
  {
    forall a :: a != ESCROW ==> Free(cur, a) == Free(bal, a) + (if a in done then NetPaid(entries, a) else 0)
  }

  /** After trying to pay the entries in `done`, no account but the escrow has lost, or gained more than its net reward. */
  ghost predicate PaidAtMost(cur: Balances, bal: Balances, entries: Entries, done: set<AccountId>)
  {
    forall a :: a != ESCROW ==> Free(bal, a) <= Free(cur, a) <= Free(bal, a) + (if a in done then NetPaid(entries, a) else 0)
  }

  ghost predicate ReservedUnchanged(cur: Balances, bal: Balances)
  {
    forall a :: Reserved(cur, a) == Reserved(bal, a)
  }

  /** After settling the entries in `done`, each of their pending balances is reduced by the gross amount. */
  ghost predicate PendingReduced(pend: Pending, pending: Pending, entries: Entries, done: set<AccountId>)
  {
    && pend.Keys == pending.Keys + done
    && forall a :: PendingOf(pend, a) == SaturatingSub(PendingOf(pending, a), if a in done then AmountOf(entries, a) else 0)
  }

  /** What a payout of `p`'s net reward that went through did to the balances. */
  ghost predicate PaidOut(b: Balances, b': Balances, entries: Entries, p: AccountId)
  {
    && Free(b', ESCROW) + NetPaid(entries, p) == Free(b, ESCROW)
    && (forall a :: a != ESCROW ==> Free(b', a) == Free(b, a) + (if a == p then NetPaid(entries, p) else 0))
    && ReservedUnchanged(b', b)
    && TotalIssuance(b') == TotalIssuance(b)
  }

  /** Settling `entries` moved exactly every net reward out of the escrow and nothing else. */
  ghost predicate PaidNet(entries: Entries, bal: Balances, bal': Balances)
  {
    && Free(bal', ESCROW) + EscrowOutflow(entries) == Free(bal, ESCROW)
    && (forall a :: a != ESCROW ==> Free(bal', a) == Free(bal, a) + NetPaid(entries, a))
    && ReservedUnchanged(bal', bal)
    && TotalIssuance(bal') == TotalIssuance(bal)
  }

  /** Settling `entries`, some payouts possibly skipped, moved at most the net rewards out of the escrow and nothing else. */
  ghost predicate PaidNetAtMost(entries: Entries, bal: Balances, bal': Balances)
  {
    && Free(bal', ESCROW) <= Free(bal, ESCROW)
    && (forall a :: a != ESCROW ==> Free(bal, a) <= Free(bal', a) <= Free(bal, a) + NetPaid(entries, a))
    && ReservedUnchanged(bal', bal)
    && TotalIssuance(bal') == TotalIssuance(bal)
  }

  /** Settling `entries` reduced each of their providers' pending balances by the gross amount. */
  ghost predicate SettledPending(pending: Pending, pending': Pending, entries: Entries)
  {
    && pending'.Keys == pending.Keys + entries.Keys
    && forall a :: PendingOf(pending', a) == SaturatingSub(PendingOf(pending, a), AmountOf(entries, a))
  }

  /** Settling `entries` added their fees and their net rewards to the saturating u128 counters. */
  ghost predicate CountedFees(entries: Entries, fees: nat, fees': nat, distributed: nat, distributed': nat)
  {
    && fees' == Min(fees + SumOf(entries.Keys, FeeF(entries)), U128_MAX)
    && distributed' == Min(distributed + SumOf(entries.Keys, NetF(entries)), U128_MAX)
  }

  /** What settling `entries` in full does to the balances, the pending balances and the counters. */
  ghost predicate SettledBatch(entries: Entries, bal: Balances, bal': Balances, pending: Pending, pending': Pending,
                               fees: nat, fees': nat, distributed: nat, distributed': nat)
  {
    && PaidNet(entries, bal, bal')
    && SettledPending(pending, pending', entries)
    && CountedFees(entries, fees, fees', distributed, distributed')
  }

  /**
    * One payout of a settlement, `T::Currency::transfer(escrow, provider, net_reward)`: it goes
    * through exactly when the escrow's free balance covers what it moves, and otherwise changes nothing.
    */
  method Payout(b: Balances, entries: Entries, p: AccountId) returns (paid: bool, b': Balances)
    requires p in entries
    ensures paid <==> NetPaid(entries, p) <= Free(b, ESCROW)
    ensures paid ==> PaidOut(b, b', entries, p)
    ensures !paid ==> b' == b
  {
    var netReward: nat := NetOf(entries[p].amount);
    var r := Transfer(b, ESCROW, p, netReward);
    if r.Failure? {
      return false, b;
    }
    TransferConserves(b, ESCROW, p, netReward);
    paid, b' := true, r.value;
  }

  /** The payout to `p`, when it goes through. */
  lemma PayoutStep(cur: Balances, next: Balances, bal: Balances, entries: Entries, done: set<AccountId>, p: AccountId)
    requires p !in done && PaidOut(cur, next, entries, p)
    ensures PaidExactly(cur, bal, entries, done) ==> PaidExactly(next, bal, entries, done + {p})
    ensures PaidAtMost(cur, bal, entries, done) ==> PaidAtMost(next, bal, entries, done + {p})
    ensures ReservedUnchanged(cur, bal) ==> ReservedUnchanged(next, bal)
  {
  }

  /** A payout to `p` that is skipped leaves what everyone received within bounds. */
  lemma SkippedPayoutStep(cur: Balances, bal: Balances, entries: Entries, done: set<AccountId>, p: AccountId)
    requires PaidAtMost(cur, bal, entries, done)
    ensures PaidAtMost(cur, bal, entries, done + {p})
  {
  }

  /** Reducing the pending balance of `p`. */
  lemma PendingStep(pend: Pending, pending: Pending, entries: Entries, done: set<AccountId>, p: AccountId)
    requires PendingReduced(pend, pending, entries, done) && p in entries && p !in done
    ensures PendingReduced(pend[p := SaturatingSub(PendingOf(pend, p), entries[p].amount)], pending, entries, done + {p})
  {
  }

  /** Once every entry has been tried, what each account received is bounded by its net reward. */
  lemma AllTried(cur: Balances, bal: Balances, entries: Entries)
    requires PaidAtMost(cur, bal, entries, entries.Keys) && ReservedUnchanged(cur, bal)
    requires Free(cur, ESCROW) <= Free(bal, ESCROW) && TotalIssuance(cur) == TotalIssuance(bal)
    ensures PaidNetAtMost(entries, bal, cur)
  {
  }

  /**
    * The fee and payout counters after processing the entries in `done`: saturating additions
    * of naturals commute, so each is its starting value plus the sum, capped.
    */
  ghost predicate Accumulated(fe: nat, di: nat, fees: nat, distributed: nat, entries: Entries, done: set<AccountId>)
  {
    && fe == Min(fees + SumOf(done, FeeF(entries)), U128_MAX)
    && di == Min(distributed + SumOf(done, NetF(entries)), U128_MAX)
  }

  lemma AccumulatedStep(fe: nat, di: nat, fees: nat, distributed: nat, entries: Entries, done: set<AccountId>, p: AccountId)
    requires Accumulated(fe, di, fees, distributed, entries, done) && p in entries && p !in done
    ensures fe <= U128_MAX && di <= U128_MAX
    ensures Accumulated(SaturatingAdd(fe, FeeOf(entries[p].amount), U128_MAX),
                        SaturatingAdd(di, NetOf(entries[p].amount), U128_MAX),
                        fees, distributed, entries, done + {p})
  {
    SumOfAdd(done, FeeF(entries), p);
    SumOfAdd(done, NetF(entries), p);
  }

  /** Moving one element from the unprocessed to the processed part keeps a partition. */
  lemma PartitionStep<K>(remaining: set<K>, done: set<K>, all: set<K>, k: K)
    requires remaining !! done && remaining + done == all && k in remaining
    ensures (remaining - {k}) !! (done + {k}) && (remaining - {k}) + (done + {k}) == all
  {
  }

  /**
    * A payout that fails for want of escrow funds, after the earlier ones were made in full,
    * shows that the escrow cannot cover the batch.
    */
  lemma ShortfallStep(entries: Entries, done: set<AccountId>, remaining: set<AccountId>, p: AccountId, escrowFree: nat, initial: nat)
    requires remaining !! done && remaining + done == entries.Keys && p in remaining
    requires escrowFree + SumOf(done, NetPaidF(entries)) == initial
    requires escrowFree < NetPaid(entries, p)
    ensures initial < EscrowOutflow(entries)
  {
    SumOfAdd(done, NetPaidF(entries), p);
    assert entries.Keys == (done + {p}) + (remaining - {p});
    SumOfUnion(done + {p}, remaining - {p}, NetPaidF(entries));
  }

  /** What holds after `PayBatch` has paid the entries in `done` out of `bal` and `pending`. */
  ghost predicate PayBatchProgress(entries: Entries, bal: Balances, pending: Pending, fees: nat, distributed: nat,
                                   done: set<AccountId>, remaining: set<AccountId>,
                                   cur: Balances, pend: Pending, fe: nat, di: nat)
  {
    && remaining !! done && remaining + done == entries.Keys
    && Free(cur, ESCROW) + SumOf(done, NetPaidF(entries)) == Free(bal, ESCROW)
    && PaidExactly(cur, bal, entries, done) && ReservedUnchanged(cur, bal)
    && TotalIssuance(cur) == TotalIssuance(bal)
    && PendingReduced(pend, pending, entries, done)
    && Accumulated(fe, di, fees, distributed, entries, done)
  }

  lemma PayBatchStart(entries: Entries, bal: Balances, pending: Pending, fees: nat, distributed: nat)
    requires fees <= U128_MAX && distributed <= U128_MAX
    ensures PayBatchProgress(entries, bal, pending, fees, distributed, {}, entries.Keys, bal, pending, fees, distributed)
  {
  }

  lemma PayBatchStep(entries: Entries, bal: Balances, pending: Pending, fees: nat, distributed: nat,
                     done: set<AccountId>, remaining: set<AccountId>,
                     cur: Balances, pend: Pending, fe: nat, di: nat, p: AccountId, next: Balances)
    requires PayBatchProgress(entries, bal, pending, fees, distributed, done, remaining, cur, pend, fe, di)
    requires p in remaining && PaidOut(cur, next, entries, p)
    ensures fe <= U128_MAX && di <= U128_MAX
    ensures PayBatchProgress(entries, bal, pending, fees, distributed, done + {p}, remaining - {p}, next,
                             pend[p := SaturatingSub(PendingOf(pend, p), entries[p].amount)],
                             SaturatingAdd(fe, FeeOf(entries[p].amount), U128_MAX),
                             SaturatingAdd(di, NetOf(entries[p].amount), U128_MAX))
  {
    PartitionStep(remaining, done, entries.Keys, p);
    SumOfAdd(done, NetPaidF(entries), p);
    PayoutStep(cur, next, bal, entries, done, p);
    PendingStep(pend, pending, entries, done, p);
    AccumulatedStep(fe, di, fees, distributed, entries, done, p);
  }

  lemma PaidInFull(entries: Entries, bal: Balances, done: set<AccountId>, cur: Balances)
    requires done == entries.Keys
    requires Free(cur, ESCROW) + SumOf(done, NetPaidF(entries)) == Free(bal, ESCROW)
    requires PaidExactly(cur, bal, entries, done)
    requires ReservedUnchanged(cur, bal) && TotalIssuance(cur) == TotalIssuance(bal)
    ensures EscrowOutflow(entries) <= Free(bal, ESCROW)
    ensures PaidNet(entries, bal, cur)
  {
  }

  lemma CountersSettled(entries: Entries, fees: nat, distributed: nat, done: set<AccountId>, fe: nat, di: nat)
    requires done == entries.Keys && Accumulated(fe, di, fees, distributed, entries, done)
    ensures CountedFees(entries, fees, fe, distributed, di)
  {
  }

  lemma PendingSettled(entries: Entries, pending: Pending, done: set<AccountId>, pend: Pending)
    requires done == entries.Keys && PendingReduced(pend, pending, entries, done)
    ensures SettledPending(pending, pend, entries)
  {
  }

  /**
    * The payout loop of `settle_batch`: for every entry, in any order, withhold the fee, pay
    * the net reward out of the escrow and reduce the provider's pending balance by the gross
    * amount, accumulating fees and net payouts in saturating counters. It succeeds exactly when
    * the escrow's free balance covers the batch's total outflow; the order cannot matter.
    */
  method PayBatch(entries: Entries, bal: Balances, pending: Pending, fees: nat, distributed: nat)
    returns (ok: bool, bal': Balances, pending': Pending, fees': nat, distributed': nat)
    requires fees <= U128_MAX && distributed <= U128_MAX
    ensures ok <==> EscrowOutflow(entries) <= Free(bal, ESCROW)
    ensures ok ==> SettledBatch(entries, bal, bal', pending, pending', fees, fees', distributed, distributed')
  {
    var cur: Balances, pend: Pending, fe: nat, di: nat := bal, pending, fees, distributed;
    var remaining: set<AccountId> := entries.Keys;
    ghost var done: set<AccountId> := {};
    PayBatchStart(entries, bal, pending, fees, distributed);
    while remaining != {}
      invariant PayBatchProgress(entries, bal, pending, fees, distributed, done, remaining, cur, pend, fe, di)
      decreases |remaining|
    {
      var provider :| provider in remaining;
      var amount: nat := entries[provider].amount;
      var paid, next := Payout(cur, entries, provider);
      if !paid {
        ShortfallStep(entries, done, remaining, provider, Free(cur, ESCROW), Free(bal, ESCROW));
        return false, bal, pending, fees, distributed;
      }
      PayBatchStep(entries, bal, pending, fees, distributed, done, remaining, cur, pend, fe, di, provider, next);
      cur, pend, fe, di, done, remaining :=
        next,
        pend[provider := SaturatingSub(PendingOf(pend, provider), entries[provider].amount)],
        SaturatingAdd(fe, FeeOf(entries[provider].amount), U128_MAX),
        SaturatingAdd(di, NetOf(entries[provider].amount), U128_MAX),
        done + {provider},
        remaining - {provider};
    }
    assert done == entries.Keys;
    PaidInFull(entries, bal, done, cur);
    PendingSettled(entries, pending, done, pend);
    CountersSettled(entries, fees, distributed, done, fe, di);
    ok, bal', pending', fees', distributed' := true, cur, pend, fe, di;
  }

  /** What holds after `PayBatchSkippingFailures` has tried to pay the entries in `done`. */
  ghost predicate SkippingProgress(entries: Entries, bal: Balances, pending: Pending,
                                   done: set<AccountId>, remaining: set<AccountId>,
                                   cur: Balances, pend: Pending, allPaid: bool)
  {
    && remaining !! done && remaining + done == entries.Keys
    && TotalIssuance(cur) == TotalIssuance(bal)
    && Free(cur, ESCROW) <= Free(bal, ESCROW)
    && PaidAtMost(cur, bal, entries, done) && ReservedUnchanged(cur, bal)
    && (allPaid ==> Free(cur, ESCROW) + SumOf(done, NetPaidF(entries)) == Free(bal, ESCROW))
    && (allPaid ==> PaidExactly(cur, bal, entries, done))
    && (!allPaid ==> Free(bal, ESCROW) < EscrowOutflow(entries))
    && PendingReduced(pend, pending, entries, done)
  }

  lemma SkippingStart(entries: Entries, bal: Balances, pending: Pending)
    ensures SkippingProgress(entries, bal, pending, {}, entries.Keys, bal, pending, true)
  {
  }

  lemma SkippingStepPaid(entries: Entries, bal: Balances, pending: Pending,
                         done: set<AccountId>, remaining: set<AccountId>,
                         cur: Balances, pend: Pending, allPaid: bool, p: AccountId, next: Balances)
    requires SkippingProgress(entries, bal, pending, done, remaining, cur, pend, allPaid)
    requires p in remaining && PaidOut(cur, next, entries, p)
    ensures SkippingProgress(entries, bal, pending, done + {p}, remaining - {p}, next,
                             pend[p := SaturatingSub(PendingOf(pend, p), entries[p].amount)], allPaid)
  {
    PartitionStep(remaining, done, entries.Keys, p);
    SumOfAdd(done, NetPaidF(entries), p);
    PayoutStep(cur, next, bal, entries, done, p);
    PendingStep(pend, pending, entries, done, p);
  }

  lemma SkippingStepSkipped(entries: Entries, bal: Balances, pending: Pending,
                            done: set<AccountId>, remaining: set<AccountId>,
                            cur: Balances, pend: Pending, allPaid: bool, p: AccountId)
    requires SkippingProgress(entries, bal, pending, done, remaining, cur, pend, allPaid)
    requires p in remaining && Free(cur, ESCROW) < NetPaid(entries, p)
    ensures SkippingProgress(entries, bal, pending, done + {p}, remaining - {p}, cur,
                             pend[p := SaturatingSub(PendingOf(pend, p), entries[p].amount)], false)
  {
    PartitionStep(remaining, done, entries.Keys, p);
    if allPaid {
      ShortfallStep(entries, done, remaining, p, Free(cur, ESCROW), Free(bal, ESCROW));
    }
    SkippedPayoutStep(cur, bal, entries, done, p);
    PendingStep(pend, pending, entries, done, p);
  }

  /**
    * The payout loop of `periodic_settlement`: as `PayBatch`, but a failed transfer is ignored
    * and only the pending balances are adjusted. Nobody but the escrow loses free balance,
    * nobody gains more than its net reward, and when the escrow covers the batch's outflow
    * every payout is made in full.
    */
  method PayBatchSkippingFailures(entries: Entries, bal: Balances, pending: Pending)
    returns (bal': Balances, pending': Pending)
    ensures PaidNetAtMost(entries, bal, bal')
    ensures EscrowOutflow(entries) <= Free(bal, ESCROW) ==> PaidNet(entries, bal, bal')
    ensures SettledPending(pending, pending', entries)
  {
    var cur: Balances, pend: Pending := bal, pending;
    var remaining: set<AccountId> := entries.Keys;
    ghost var done: set<AccountId> := {};
    ghost var allPaid := true;
    SkippingStart(entries, bal, pending);
    while remaining != {}
      invariant SkippingProgress(entries, bal, pending, done, remaining, cur, pend, allPaid)
      decreases |remaining|
    {
      var provider :| provider in remaining;
      var amount: nat := entries[provider].amount;
      var paid, next := Payout(cur, entries, provider);
      if paid {
        SkippingStepPaid(entries, bal, pending, done, remaining, cur, pend, allPaid, provider, next);
        cur := next;
      } else {
        SkippingStepSkipped(entries, bal, pending, done, remaining, cur, pend, allPaid, provider);
        allPaid := false;
      }
      pend := pend[provider := SaturatingSub(PendingOf(pend, provider), amount)];
      done := done + {provider};
      remaining := remaining - {provider};
    }
    assert done == entries.Keys;
    if allPaid {
      PaidInFull(entries, bal, done, cur);
    }
    PendingSettled(entries, pending, done, pend);
    AllTried(cur, bal, entries);
    bal', pending' := cur, pend;
  }

  ghost function AmountF(entries: Entries): AccountId -> nat
  {
    a => AmountOf(entries, a)
  }

  /** A settlement splits every gross amount into the platform's fee and the provider's net reward. */
  lemma SettlementSplitsGross(entries: Entries)
    ensures SumOf(entries.Keys, FeeF(entries)) + SumOf(entries.Keys, NetF(entries)) == SumOf(entries.Keys, AmountF(entries))
  {
    SumOfPlus(entries.Keys, FeeF(entries), NetF(entries), AmountF(entries));
  }

  /** Settling a batch only lowers pending balances and keeps the counters saturating, so all stay u128 values. */
  lemma SettledBatchBounded(entries: Entries, bal: Balances, bal': Balances, pending: Pending, pending': Pending,
                            fees: nat, fees': nat, distributed: nat, distributed': nat)
    requires PendingBounded(pending)
    requires SettledBatch(entries, bal, bal', pending, pending', fees, fees', distributed, distributed')
    ensures PendingBounded(pending') && fees' <= U128_MAX && distributed' <= U128_MAX
  {
    forall a | a in pending'
      ensures pending'[a] <= U128_MAX
    {
      assert PendingOf(pending', a) == pending'[a];
    }
  }

  // ---------------------------------------------------------------------------------------
  // Paying each allocation once
  // ---------------------------------------------------------------------------------------

  /**
    * The entries of a batch cut down to what is still pending for each provider, so that an
    * award already withdrawn with `claim_rewards` is not paid out a second time.
    */
  function Settleable(entries: Entries, pending: Pending): (s: Entries)
    ensures s.Keys == entries.Keys
    ensures forall a :: AmountOf(s, a) <= AmountOf(entries, a) && AmountOf(s, a) <= PendingOf(pending, a)
    ensures forall a :: AmountOf(entries, a) <= PendingOf(pending, a) ==> AmountOf(s, a) == AmountOf(entries, a)
  {
    map a | a in entries :: entries[a].(amount := Min(entries[a].amount, PendingOf(pending, a)))
  }

  /**
    * As written, `settle_batch` pays every entry's net reward whatever is still pending: a
    * provider that withdraws its pending balance and then sees the batch settled receives the
    * award a second time, and nothing is left pending to account for it.
    */
  lemma AsWrittenClaimThenSettlePaysTwice(entries: Entries, bal: Balances, bal1: Balances, bal2: Balances,
                                          pending: Pending, pending2: Pending,
                                          fees: nat, fees': nat, distributed: nat, distributed': nat, p: AccountId)
    requires p != ESCROW && p in entries
    requires Transfer(bal, ESCROW, p, PendingOf(pending, p)) == Success(bal1)
    requires SettledBatch(entries, bal1, bal2, pending - {p}, pending2, fees, fees', distributed, distributed')
    ensures Free(bal2, p) == Free(bal, p) + PendingOf(pending, p) + NetOf(entries[p].amount)
    ensures PendingOf(pending2, p) == 0
  {
  }

  /**
    * Settling the cut-down entries never pays a provider more than its pending balance drops by:
    * free balance plus pending reward never grows outside the escrow, so no allocation leaves the
    * escrow twice. The pending balances are reduced exactly as the code reduces them.
    */
  lemma SettlementCoveredByPending(entries: Entries, bal: Balances, bal': Balances, pending: Pending, pending': Pending,
                                   fees: nat, fees': nat, distributed: nat, distributed': nat)
    requires SettledBatch(Settleable(entries, pending), bal, bal', pending, pending', fees, fees', distributed, distributed')
    ensures forall a :: a != ESCROW ==> Free(bal', a) + PendingOf(pending', a) <= Free(bal, a) + PendingOf(pending, a)
    ensures forall a :: PendingOf(pending', a) == SaturatingSub(PendingOf(pending, a), AmountOf(entries, a))
  {
    var s := Settleable(entries, pending);
    assert PaidNet(s, bal, bal') && SettledPending(pending, pending', s);
    forall a
      ensures PendingOf(pending', a) == SaturatingSub(PendingOf(pending, a), AmountOf(entries, a))
      ensures a != ESCROW ==> Free(bal', a) + PendingOf(pending', a) <= Free(bal, a) + PendingOf(pending, a)
    {
      SettleableAt(entries, pending, a);
    }
  }

  /** For one provider, the cut-down entry is paid at most what it takes off the pending balance. */
  lemma SettleableAt(entries: Entries, pending: Pending, a: AccountId)
    ensures NetPaid(Settleable(entries, pending), a) + SaturatingSub(PendingOf(pending, a), AmountOf(Settleable(entries, pending), a))
            <= PendingOf(pending, a)
    ensures SaturatingSub(PendingOf(pending, a), AmountOf(Settleable(entries, pending), a))
            == SaturatingSub(PendingOf(pending, a), AmountOf(entries, a))
  {
    var s := Settleable(entries, pending);
    if a in entries {
      assert AmountOf(s, a) == Min(entries[a].amount, PendingOf(pending, a));
    }
  }

  /**
    * With the cut-down entries, withdrawing the pending balance and then settling a batch pays the
    * provider exactly its pending balance, and once.
    */
  lemma ClaimThenSettlePaysOnce(entries: Entries, bal: Balances, bal1: Balances, bal2: Balances,
                                pending: Pending, pending2: Pending,
                                fees: nat, fees': nat, distributed: nat, distributed': nat, p: AccountId)
    requires p != ESCROW
    requires Transfer(bal, ESCROW, p, PendingOf(pending, p)) == Success(bal1)
    requires SettledBatch(Settleable(entries, pending - {p}), bal1, bal2, pending - {p}, pending2,
                          fees, fees', distributed, distributed')
    ensures Free(bal2, p) == Free(bal, p) + PendingOf(pending, p)
    ensures PendingOf(pending2, p) == 0
  {
    assert PendingOf(pending - {p}, p) == 0;
    assert AmountOf(Settleable(entries, pending - {p}), p) == 0;
  }

  // ---------------------------------------------------------------------------------------
  // Submission loop
  // ---------------------------------------------------------------------------------------

  /** What holds after `submit_rewards` has accepted the first `i` entries of `rs`. */
  ghost predicate SubmitProgress(rs: seq<ProviderReward>, i: nat, entries0: Entries, pending0: Pending,
                                 total: nat, entries: Entries, pend: Pending)
  {
    && i <= |rs|
    && (forall j :: 0 <= j < i ==> EntryError(rs[j]).None?)
    && total == SaturatingRewardSum(rs[..i])
    && entries == Record(entries0, rs[..i])
    && PendingBounded(pending0)
    && pend == Credit(pending0, rs[..i])
  }

  lemma SubmitStart(rs: seq<ProviderReward>, entries0: Entries, pending0: Pending)
    requires PendingBounded(pending0)
    ensures SubmitProgress(rs, 0, entries0, pending0, 0, entries0, pending0)
  {
    assert rs[..0] == [];
  }

  lemma SubmitStep(rs: seq<ProviderReward>, i: nat, entries0: Entries, pending0: Pending,
                   total: nat, entries: Entries, pend: Pending)
    requires SubmitProgress(rs, i, entries0, pending0, total, entries, pend)
    requires i < |rs| && EntryError(rs[i]).None?
    ensures total <= U128_MAX && PendingOf(pend, rs[i].provider) <= U128_MAX
    ensures SubmitProgress(rs, i + 1, entries0, pending0,
                           SaturatingAdd(total, rs[i].amount, U128_MAX),
                           entries[rs[i].provider := rs[i]],
                           pend[rs[i].provider := SaturatingAdd(PendingOf(pend, rs[i].provider), rs[i].amount, U128_MAX)])
  {
    var next := rs[..i + 1];
    assert next[..i] == rs[..i] && next[i] == rs[i];
    assert SaturatingRewardSum(next) == SaturatingAdd(total, rs[i].amount, U128_MAX);
    assert Record(entries0, next) == entries[rs[i].provider := rs[i]];
    assert Credit(pending0, next) == pend[rs[i].provider := SaturatingAdd(PendingOf(pend, rs[i].provider), rs[i].amount, U128_MAX)];
  }

  lemma SubmitDone(rs: seq<ProviderReward>, entries0: Entries, pending0: Pending,
                   total: nat, entries: Entries, pend: Pending)
    requires SubmitProgress(rs, |rs|, entries0, pending0, total, entries, pend)
    ensures FirstInvalid(rs).None?
    ensures total == SaturatingRewardSum(rs) && entries == Record(entries0, rs) && pend == Credit(pending0, rs)
  {
    assert rs[..|rs|] == rs;
  }

  /**
    * The loop of `submit_rewards`: validate each entry in order, stopping at the first refused
    * one, keep the saturating running total, store the entry under its provider and credit the
    * provider's pending balance.
    */
  method Allocate(rs: seq<ProviderReward>, entries0: Entries, pending0: Pending)
    returns (refused: Option<RewardError>, total: nat, entries: Entries, pend: Pending)
    requires PendingBounded(pending0)
    ensures refused == FirstInvalid(rs)
    ensures refused.None? ==> total == SaturatingRewardSum(rs) && entries == Record(entries0, rs) && pend == Credit(pending0, rs)
  {
    total, entries, pend := 0, entries0, pending0;
    var i: nat := 0;
    SubmitStart(rs, entries0, pending0);
    while i < |rs|
      invariant SubmitProgress(rs, i, entries0, pending0, total, entries, pend)
      decreases |rs| - i
    {
      var reward := rs[i];
      refused := EntryError(reward);
      if refused.Some? {
        FirstInvalidAt(rs, i);
        return;
      }
      SubmitStep(rs, i, entries0, pending0, total, entries, pend);
      total, entries, pend, i :=
        SaturatingAdd(total, reward.amount, U128_MAX),
        entries[reward.provider := reward],
        pend[reward.provider := SaturatingAdd(PendingOf(pend, reward.provider), reward.amount, U128_MAX)],
        i + 1;
    }
    SubmitDone(rs, entries0, pending0, total, entries, pend);
    refused := None;
  }

  // ---------------------------------------------------------------------------------------
  // Periodic settlement
  // ---------------------------------------------------------------------------------------

  /** `created_at.saturating_add(SettlementPeriod)` on u32 block numbers. */
  function SettlementDue(createdAt: nat): nat
  {
    Min(createdAt + SETTLEMENT_PERIOD, U32_MAX)
  }

  /** The batches `periodic_settlement` settles at block `now`: the unsettled ones that are due. */
  ghost function DueBatches(batches: map<Hash, RewardBatch>, now: nat): set<Hash>
  {
    set id | id in batches && !batches[id].settled && SettlementDue(batches[id].createdAt) <= now
  }

  /** The batches with those in `due` marked settled. */
  ghost function MarkSettled(batches: map<Hash, RewardBatch>, due: set<Hash>): map<Hash, RewardBatch>
  {
    map id | id in batches :: if id in due then batches[id].(settled := true) else batches[id]
  }

  /** The providers with an entry in one of the batches in `due`. */
  ghost function DueProviders(batchRewards: map<Hash, Entries>, due: set<Hash>): set<AccountId>
  {
    set id, a | id in due && a in EntriesIn(batchRewards, id) :: a
  }

  /** Per batch, the gross amount allocated to `a`. */
  ghost function BatchAmountF(batchRewards: map<Hash, Entries>, a: AccountId): Hash -> nat
  {
    id => AmountOf(EntriesIn(batchRewards, id), a)
  }

  /** Per batch, what settling it pays `a` out of the escrow. */
  ghost function BatchNetF(batchRewards: map<Hash, Entries>, a: AccountId): Hash -> nat
  {
    id => NetPaid(EntriesIn(batchRewards, id), a)
  }

  /** Which batches the sweep has visited, and which of them it settled. */
  ghost predicate SweepVisited(batches0: map<Hash, RewardBatch>, now: nat,
                               processed: set<Hash>, remaining: set<Hash>, settledNow: set<Hash>,
                               batches: map<Hash, RewardBatch>, count: nat)
  {
    && remaining !! processed && remaining + processed == batches0.Keys
    && settledNow == DueBatches(batches0, now) * processed
    && batches == MarkSettled(batches0, settledNow)
    && count == |settledNow|
  }

  /** The balances after the payouts of the batches in `settledNow`, each of which may have been skipped. */
  ghost predicate SweepPaid(batchRewards: map<Hash, Entries>, bal: Balances, settledNow: set<Hash>, cur: Balances)
  {
    && TotalIssuance(cur) == TotalIssuance(bal)
    && Free(cur, ESCROW) <= Free(bal, ESCROW)
    && (forall a :: a != ESCROW ==> Free(bal, a) <= Free(cur, a) <= Free(bal, a) + SumOf(settledNow, BatchNetF(batchRewards, a)))
    && ReservedUnchanged(cur, bal)
  }

  /** Per batch, what settling it pays out of the escrow in all. */
  ghost function OutflowF(batchRewards: map<Hash, Entries>): Hash -> nat
  {
    id => EscrowOutflow(EntriesIn(batchRewards, id))
  }

  /** The balances after every batch in `settledNow` has been paid out in full. */
  ghost predicate SweepPaidInFull(batchRewards: map<Hash, Entries>, bal: Balances, settledNow: set<Hash>, cur: Balances)
  {
    && Free(cur, ESCROW) + SumOf(settledNow, OutflowF(batchRewards)) == Free(bal, ESCROW)
    && (forall a :: a != ESCROW ==> Free(cur, a) == Free(bal, a) + SumOf(settledNow, BatchNetF(batchRewards, a)))
  }

  /**
    * What the sweep has paid after settling the batches in `settledNow`: each payout may have
    * been skipped, but none is when the escrow covers every due batch (`covered`).
    */
  ghost predicate SweepPayment(batchRewards: map<Hash, Entries>, bal: Balances, covered: bool,
                               settledNow: set<Hash>, cur: Balances)
  {
    && SweepPaid(batchRewards, bal, settledNow, cur)
    && (covered ==> SweepPaidInFull(batchRewards, bal, settledNow, cur))
  }

  /** The pending balances after settling the batches in `settledNow`. */
  ghost predicate SweepPending(batchRewards: map<Hash, Entries>, pending0: Pending, settledNow: set<Hash>, pend: Pending)
  {
    && pend.Keys == pending0.Keys + DueProviders(batchRewards, settledNow)
    && (forall a :: PendingOf(pend, a) == SaturatingSub(PendingOf(pending0, a), SumOf(settledNow, BatchAmountF(batchRewards, a))))
  }

  lemma SweepStartVisited(batches0: map<Hash, RewardBatch>, now: nat)
    ensures SweepVisited(batches0, now, {}, batches0.Keys, {}, batches0, 0)
  {
    assert MarkSettled(batches0, {}) == batches0;
  }

  lemma SweepStartPaid(batchRewards: map<Hash, Entries>, bal: Balances, covered: bool)
    ensures SweepPayment(batchRewards, bal, covered, {}, bal)
  {
  }

  lemma SweepStartPending(batchRewards: map<Hash, Entries>, pending0: Pending)
    ensures SweepPending(batchRewards, pending0, {}, pending0)
  {
    assert DueProviders(batchRewards, {}) == {};
  }

  lemma SweepVisitDue(batches0: map<Hash, RewardBatch>, now: nat,
                      processed: set<Hash>, remaining: set<Hash>, settledNow: set<Hash>,
                      batches: map<Hash, RewardBatch>, count: nat, id: Hash)
    requires SweepVisited(batches0, now, processed, remaining, settledNow, batches, count)
    requires id in remaining && id in DueBatches(batches0, now)
    ensures id !in settledNow && settledNow + {id} <= DueBatches(batches0, now)
    ensures SweepVisited(batches0, now, processed + {id}, remaining - {id}, settledNow + {id},
                         batches[id := batches0[id].(settled := true)], count + 1)
  {
    PartitionStep(remaining, processed, batches0.Keys, id);
    assert settledNow + {id} == DueBatches(batches0, now) * (processed + {id});
    assert MarkSettled(batches0, settledNow + {id}) == batches[id := batches0[id].(settled := true)];
  }

  lemma SweepVisitSkip(batches0: map<Hash, RewardBatch>, now: nat,
                       processed: set<Hash>, remaining: set<Hash>, settledNow: set<Hash>,
                       batches: map<Hash, RewardBatch>, count: nat, id: Hash)
    requires SweepVisited(batches0, now, processed, remaining, settledNow, batches, count)
    requires id in remaining && id !in DueBatches(batches0, now)
    ensures SweepVisited(batches0, now, processed + {id}, remaining - {id}, settledNow, batches, count)
  {
    PartitionStep(remaining, processed, batches0.Keys, id);
    assert settledNow == DueBatches(batches0, now) * (processed + {id});
  }

  lemma SweepPayStep(batchRewards: map<Hash, Entries>, bal: Balances, settledNow: set<Hash>, cur: Balances,
                     id: Hash, next: Balances)
    requires id !in settledNow && SweepPaid(batchRewards, bal, settledNow, cur)
    requires PaidNetAtMost(EntriesIn(batchRewards, id), cur, next)
    ensures SweepPaid(batchRewards, bal, settledNow + {id}, next)
  {
    forall a | a != ESCROW
      ensures Free(bal, a) <= Free(next, a) <= Free(bal, a) + SumOf(settledNow + {id}, BatchNetF(batchRewards, a))
    {
      SumOfAdd(settledNow, BatchNetF(batchRewards, a), id);
    }
  }

  /** When the escrow covers all due batches, it still covers the next one after paying those settled so far in full. */
  lemma SweepCovered(batchRewards: map<Hash, Entries>, bal: Balances, settledNow: set<Hash>, due: set<Hash>,
                     cur: Balances, id: Hash)
    requires id !in settledNow && settledNow + {id} <= due
    requires SumOf(due, OutflowF(batchRewards)) <= Free(bal, ESCROW)
    requires SweepPaidInFull(batchRewards, bal, settledNow, cur)
    ensures EscrowOutflow(EntriesIn(batchRewards, id)) <= Free(cur, ESCROW)
  {
    SumOfAdd(settledNow, OutflowF(batchRewards), id);
    SumOfSubset(settledNow + {id}, due, OutflowF(batchRewards));
  }

  lemma SweepPayInFullStep(batchRewards: map<Hash, Entries>, bal: Balances, settledNow: set<Hash>, cur: Balances,
                           id: Hash, next: Balances)
    requires id !in settledNow && SweepPaidInFull(batchRewards, bal, settledNow, cur)
    requires PaidNet(EntriesIn(batchRewards, id), cur, next)
    ensures SweepPaidInFull(batchRewards, bal, settledNow + {id}, next)
  {
    SumOfAdd(settledNow, OutflowF(batchRewards), id);
    forall a | a != ESCROW
      ensures Free(next, a) == Free(bal, a) + SumOf(settledNow + {id}, BatchNetF(batchRewards, a))
    {
      SumOfAdd(settledNow, BatchNetF(batchRewards, a), id);
    }
  }

  lemma SweepPaymentStep(batchRewards: map<Hash, Entries>, bal: Balances, covered: bool, due: set<Hash>,
                         settledNow: set<Hash>, cur: Balances, id: Hash, next: Balances)
    requires id !in settledNow && settledNow + {id} <= due
    requires covered ==> SumOf(due, OutflowF(batchRewards)) <= Free(bal, ESCROW)
    requires SweepPayment(batchRewards, bal, covered, settledNow, cur)
    requires PaidNetAtMost(EntriesIn(batchRewards, id), cur, next)
    requires EscrowOutflow(EntriesIn(batchRewards, id)) <= Free(cur, ESCROW) ==> PaidNet(EntriesIn(batchRewards, id), cur, next)
    ensures SweepPayment(batchRewards, bal, covered, settledNow + {id}, next)
  {
    SweepPayStep(batchRewards, bal, settledNow, cur, id, next);
    if covered {
      SweepCovered(batchRewards, bal, settledNow, due, cur, id);
      SweepPayInFullStep(batchRewards, bal, settledNow, cur, id, next);
    }
  }

  lemma SweepPendingStep(batchRewards: map<Hash, Entries>, pending0: Pending, settledNow: set<Hash>, pend: Pending,
                         id: Hash, pend': Pending)
    requires id !in settledNow && SweepPending(batchRewards, pending0, settledNow, pend)
    requires SettledPending(pend, pend', EntriesIn(batchRewards, id))
    ensures SweepPending(batchRewards, pending0, settledNow + {id}, pend')
  {
    forall a
      ensures PendingOf(pend', a) == SaturatingSub(PendingOf(pending0, a), SumOf(settledNow + {id}, BatchAmountF(batchRewards, a)))
    {
      SumOfAdd(settledNow, BatchAmountF(batchRewards, a), id);
    }
    assert DueProviders(batchRewards, settledNow + {id}) == DueProviders(batchRewards, settledNow) + EntriesIn(batchRewards, id).Keys;
  }

  lemma SweepDone(batches0: map<Hash, RewardBatch>, now: nat, processed: set<Hash>, settledNow: set<Hash>,
                  batches: map<Hash, RewardBatch>, count: nat)
    requires SweepVisited(batches0, now, processed, {}, settledNow, batches, count)
    ensures settledNow == DueBatches(batches0, now)
  {
  }

  /** The sweep only lowers pending balances, so they stay within the u128 range. */
  lemma SweepPendingBounded(batchRewards: map<Hash, Entries>, pending0: Pending, settledNow: set<Hash>, pend: Pending)
    requires PendingBounded(pending0) && SweepPending(batchRewards, pending0, settledNow, pend)
    ensures PendingBounded(pend)
  {
    forall a | a in pend
      ensures pend[a] <= U128_MAX
    {
      assert PendingOf(pend, a) == pend[a];
    }
  }

  /** What holds after the sweep has visited the batches in `processed`. */
  ghost predicate SweepProgress(batchRewards: map<Hash, Entries>, batches0: map<Hash, RewardBatch>, now: nat,
                                bal: Balances, pending0: Pending, covered: bool,
                                processed: set<Hash>, remaining: set<Hash>, settledNow: set<Hash>,
                                batches: map<Hash, RewardBatch>, count: nat, cur: Balances, pend: Pending)
  {
    && SweepVisited(batches0, now, processed, remaining, settledNow, batches, count)
    && (covered ==> SumOf(DueBatches(batches0, now), OutflowF(batchRewards)) <= Free(bal, ESCROW))
    && SweepPayment(batchRewards, bal, covered, settledNow, cur)
    && SweepPending(batchRewards, pending0, settledNow, pend)
  }

  lemma SweepStart(batchRewards: map<Hash, Entries>, batches0: map<Hash, RewardBatch>, now: nat,
                   bal: Balances, pending0: Pending, covered: bool)
    requires covered ==> SumOf(DueBatches(batches0, now), OutflowF(batchRewards)) <= Free(bal, ESCROW)
    ensures SweepProgress(batchRewards, batches0, now, bal, pending0, covered, {}, batches0.Keys, {}, batches0, 0, bal, pending0)
  {
    SweepStartVisited(batches0, now);
    SweepStartPaid(batchRewards, bal, covered);
    SweepStartPending(batchRewards, pending0);
  }

  lemma SweepStepDue(batchRewards: map<Hash, Entries>, batches0: map<Hash, RewardBatch>, now: nat,
                     bal: Balances, pending0: Pending, covered: bool,
                     processed: set<Hash>, remaining: set<Hash>, settledNow: set<Hash>,
                     batches: map<Hash, RewardBatch>, count: nat, cur: Balances, pend: Pending,
                     id: Hash, next: Balances, pend': Pending)
    requires SweepProgress(batchRewards, batches0, now, bal, pending0, covered, processed, remaining, settledNow, batches, count, cur, pend)
    requires id in remaining && !batches0[id].settled && SettlementDue(batches0[id].createdAt) <= now
    requires PaidNetAtMost(EntriesIn(batchRewards, id), cur, next)
    requires EscrowOutflow(EntriesIn(batchRewards, id)) <= Free(cur, ESCROW) ==> PaidNet(EntriesIn(batchRewards, id), cur, next)
    requires SettledPending(pend, pend', EntriesIn(batchRewards, id))
    ensures SweepProgress(batchRewards, batches0, now, bal, pending0, covered, processed + {id}, remaining - {id}, settledNow + {id},
                          batches[id := batches0[id].(settled := true)], count + 1, next, pend')
  {
    SweepVisitDue(batches0, now, processed, remaining, settledNow, batches, count, id);
    SweepPaymentStep(batchRewards, bal, covered, DueBatches(batches0, now), settledNow, cur, id, next);
    SweepPendingStep(batchRewards, pending0, settledNow, pend, id, pend');
  }

  lemma SweepStepSkip(batchRewards: map<Hash, Entries>, batches0: map<Hash, RewardBatch>, now: nat,
                      bal: Balances, pending0: Pending, covered: bool,
                      processed: set<Hash>, remaining: set<Hash>, settledNow: set<Hash>,
                      batches: map<Hash, RewardBatch>, count: nat, cur: Balances, pend: Pending, id: Hash)
    requires SweepProgress(batchRewards, batches0, now, bal, pending0, covered, processed, remaining, settledNow, batches, count, cur, pend)
    requires id in remaining && (batches0[id].settled || now < SettlementDue(batches0[id].createdAt))
    ensures SweepProgress(batchRewards, batches0, now, bal, pending0, covered, processed + {id}, remaining - {id}, settledNow,
                          batches, count, cur, pend)
  {
    SweepVisitSkip(batches0, now, processed, remaining, settledNow, batches, count, id);
  }

  lemma SweepFinish(batchRewards: map<Hash, Entries>, batches0: map<Hash, RewardBatch>, now: nat,
                    bal: Balances, pending0: Pending, covered: bool,
                    processed: set<Hash>, settledNow: set<Hash>,
                    batches: map<Hash, RewardBatch>, count: nat, cur: Balances, pend: Pending)
    requires SweepProgress(batchRewards, batches0, now, bal, pending0, covered, processed, {}, settledNow, batches, count, cur, pend)
    ensures batches == MarkSettled(batches0, DueBatches(batches0, now))
    ensures count == |DueBatches(batches0, now)|
    ensures SweepPaid(batchRewards, bal, DueBatches(batches0, now), cur)
    ensures settledNow == DueBatches(batches0, now)
    ensures covered ==> SweepPaidInFull(batchRewards, bal, settledNow, cur)
    ensures SweepPending(batchRewards, pending0, DueBatches(batches0, now), pend)
  {
    SweepDone(batches0, now, processed, settledNow, batches, count);
  }

  /**
    * One step of the sweep: a due batch is marked settled and paid out, skipping failed payouts;
    * any other batch is left alone.
    */
  method SweepVisit(batchRewards: map<Hash, Entries>, batches0: map<Hash, RewardBatch>, now: nat,
                    bal: Balances, pending0: Pending, ghost covered: bool,
                    ghost processed: set<Hash>, remaining: set<Hash>, ghost settledNow: set<Hash>,
                    batches: map<Hash, RewardBatch>, count: nat, cur: Balances, pend: Pending, id: Hash)
    returns (batches': map<Hash, RewardBatch>, count': nat, next: Balances, pend': Pending, ghost settledNow': set<Hash>)
    requires SweepProgress(batchRewards, batches0, now, bal, pending0, covered, processed, remaining, settledNow, batches, count, cur, pend)
    requires id in remaining
    ensures SweepProgress(batchRewards, batches0, now, bal, pending0, covered, processed + {id}, remaining - {id}, settledNow',
                          batches', count', next, pend')
  {
    var batch := batches0[id];
    if !batch.settled && SettlementDue(batch.createdAt) <= now {
      next, pend' := PayBatchSkippingFailures(EntriesIn(batchRewards, id), cur, pend);
      SweepStepDue(batchRewards, batches0, now, bal, pending0, covered, processed, remaining, settledNow, batches, count, cur, pend,
                   id, next, pend');
      batches', count', settledNow' := batches[id := batch.(settled := true)], count + 1, settledNow + {id};
    } else {
      SweepStepSkip(batchRewards, batches0, now, bal, pending0, covered, processed, remaining, settledNow, batches, count, cur, pend, id);
      batches', count', next, pend', settledNow' := batches, count, cur, pend, settledNow;
    }
  }

  /**
    * The sweep of `periodic_settlement`: visit every batch, in any order, and for each unsettled
    * one that is due mark it settled and pay it out, skipping failed payouts. When the escrow
    * covers the outflow of all due batches, which the caller records in `covered`, no payout
    * fails and every provider is paid exactly its net rewards from those batches.
    */
  method Sweep(batchRewards: map<Hash, Entries>, batches0: map<Hash, RewardBatch>, now: nat, bal: Balances, pending0: Pending,
               ghost covered: bool)
    returns (batches: map<Hash, RewardBatch>, count: nat, bal': Balances, pend: Pending, ghost due: set<Hash>)
    requires covered ==> SumOf(DueBatches(batches0, now), OutflowF(batchRewards)) <= Free(bal, ESCROW)
    ensures batches == MarkSettled(batches0, DueBatches(batches0, now))
    ensures count == |DueBatches(batches0, now)|
    ensures SweepPaid(batchRewards, bal, DueBatches(batches0, now), bal')
    ensures due == DueBatches(batches0, now)
    ensures covered ==> SweepPaidInFull(batchRewards, bal, due, bal')
    ensures SweepPending(batchRewards, pending0, DueBatches(batches0, now), pend)
  {
    batches, count, bal', pend := batches0, 0, bal, pending0;
    var remaining: set<Hash> := batches0.Keys;
    ghost var processed: set<Hash> := {};
    ghost var settledNow: set<Hash> := {};
    SweepStart(batchRewards, batches0, now, bal, pending0, covered);
    while remaining != {}
      invariant SweepProgress(batchRewards, batches0, now, bal, pending0, covered, processed, remaining, settledNow, batches, count, bal', pend)
      decreases |remaining|
    {
      var id :| id in remaining;
      ghost var settled';
      batches, count, bal', pend, settled' := SweepVisit(batchRewards, batches0, now, bal, pending0, covered, processed, remaining,
                                                         settledNow, batches, count, bal', pend, id);
      processed, remaining, settledNow := processed + {id}, remaining - {id}, settled';
    }
    SweepFinish(batchRewards, batches0, now, bal, pending0, covered, processed, settledNow, batches, count, bal', pend);
    due := settledNow;
  }

  /** Batches are created at u32 block numbers. */
  ghost predicate BatchesValid(batches: map<Hash, RewardBatch>)
  {
    forall id :: id in batches ==> batches[id].createdAt <= U32_MAX
  }

  /** Pending balances are u128 values. */
  ghost predicate PendingBounded(pending: Pending)
  {
    forall a :: a in pending ==> pending[a] <= U128_MAX
  }

  /** Entries exist only for created batches and are keyed by their own provider. */
  ghost predicate EntriesValid(batchRewards: map<Hash, Entries>, batches: map<Hash, RewardBatch>)
  {
    && (forall id :: id in batchRewards ==> id in batches)
    && (forall id, a :: id in batchRewards && a in batchRewards[id] ==> batchRewards[id][a].provider == a)
  }

  /** Marking batches settled changes neither their ids nor their creation blocks. */
  lemma MarkSettledKeepsValid(batchRewards: map<Hash, Entries>, batches: map<Hash, RewardBatch>, due: set<Hash>)
    requires BatchesValid(batches) && EntriesValid(batchRewards, batches)
    ensures BatchesValid(MarkSettled(batches, due)) && EntriesValid(batchRewards, MarkSettled(batches, due))
  {
  }

  /** Marking one batch settled changes neither the batch ids nor their creation blocks. */
  lemma SettleOneKeepsValid(batchRewards: map<Hash, Entries>, batches: map<Hash, RewardBatch>, id: Hash)
    requires BatchesValid(batches) && EntriesValid(batchRewards, batches) && id in batches
    ensures BatchesValid(batches[id := batches[id].(settled := true)])
    ensures EntriesValid(batchRewards, batches[id := batches[id].(settled := true)])
  {
  }

  /** Storing a submission for a created batch keeps entries keyed by provider. */
  lemma SubmitKeepsValid(batchRewards: map<Hash, Entries>, batches: map<Hash, RewardBatch>, id: Hash, rs: seq<ProviderReward>)
    requires EntriesValid(batchRewards, batches) && id in batches
    ensures EntriesValid(batchRewards[id := Record(EntriesIn(batchRewards, id), rs)], batches)
  {
    RecordKeyedByProvider(EntriesIn(batchRewards, id), rs);
  }

  /** The reward ledger's storage. */
  class RewardDistribution {
    var rewardBatches: map<Hash, RewardBatch>
    var batchRewards: map<Hash, Entries>
    var pendingRewards: Pending
    var totalRewardsDistributed: nat
    var lastSettlementBlock: nat
    var platformFeesCollected: nat

    /**
      * Counters and pending balances are u128 values, block numbers u32 values; entries exist
      * only for created batches and are keyed by their own provider.
      */
    ghost predicate Valid()
      reads this
    {
      && totalRewardsDistributed <= U128_MAX && platformFeesCollected <= U128_MAX
      && lastSettlementBlock <= U32_MAX
      && BatchesValid(rewardBatches)
      && PendingBounded(pendingRewards)
      && EntriesValid(batchRewards, rewardBatches)
    }

    constructor ()
      ensures Valid()
      ensures rewardBatches == map[] && batchRewards == map[] && pendingRewards == map[]
      ensures totalRewardsDistributed == 0 && lastSettlementBlock == 0 && platformFeesCollected == 0
    {
      rewardBatches, batchRewards, pendingRewards := map[], map[], map[];
      totalRewardsDistributed, lastSettlementBlock, platformFeesCollected := 0, 0, 0;
    }

    /** Writes the storage items. */
    method Commit(batches: map<Hash, RewardBatch>, entries: map<Hash, Entries>, pending: Pending,
                  distributed: nat, last: nat, fees: nat)
      requires distributed <= U128_MAX && fees <= U128_MAX && last <= U32_MAX
      requires BatchesValid(batches) && PendingBounded(pending) && EntriesValid(entries, batches)
      modifies this
      ensures Valid()
      ensures rewardBatches == batches && batchRewards == entries && pendingRewards == pending
      ensures totalRewardsDistributed == distributed && lastSettlementBlock == last && platformFeesCollected == fees
    {
      rewardBatches, batchRewards, pendingRewards := batches, entries, pending;
      totalRewardsDistributed, lastSettlementBlock, platformFeesCollected := distributed, last, fees;
    }

    /** `create_batch`: open an unsettled batch whose id hashes the task, the caller and the block. */
    method CreateBatch(origin: Origin, taskId: Hash, totalBounty: nat, merkleRoot: Hash, now: nat)
      returns (res: DispatchResult<RewardError>, batchId: Hash)
      requires Valid() && now <= U32_MAX
      modifies this
      ensures Valid()
      ensures origin.Signed? ==> batchId == HashOfBatch(taskId, origin.who, now)
      ensures res == (
        if !origin.Signed? then Err(BadOrigin)
        else if HashOfBatch(taskId, origin.who, now) in old(rewardBatches) then Err(Module(BatchAlreadyExists))
        else Ok)
      ensures res.Err? ==> unchanged(this)
      ensures res.Ok? ==>
        && rewardBatches == old(rewardBatches)[batchId := RewardBatch(taskId, totalBounty, origin.who, now, false, merkleRoot)]
        && batchRewards == old(batchRewards) && pendingRewards == old(pendingRewards)
        && totalRewardsDistributed == old(totalRewardsDistributed) && platformFeesCollected == old(platformFeesCollected)
        && lastSettlementBlock == old(lastSettlementBlock)
    {
      batchId := Digest([]);
      if !origin.Signed? { return Err(BadOrigin), batchId; }
      batchId := HashOfBatch(taskId, origin.who, now);
      if batchId in rewardBatches { return Err(Module(BatchAlreadyExists)), batchId; }
      rewardBatches := rewardBatches[batchId := RewardBatch(taskId, totalBounty, origin.who, now, false, merkleRoot)];
      res := Ok;
    }

    /**
      * `submit_rewards`: the batch's coordinator allocates rewards, entry by entry; each entry is
      * stored under its provider and credited to the provider's pending balance. A refused entry
      * or a total above the bounty rolls the whole call back.
      */
    method SubmitRewards(origin: Origin, batchId: Hash, rewards: seq<ProviderReward>) returns (res: DispatchResult<RewardError>)
      requires Valid()
      modifies this
      ensures Valid()
      ensures res == (
        if !origin.Signed? then Err(BadOrigin)
        else if batchId !in old(rewardBatches) then Err(Module(BatchNotFound))
        else if old(rewardBatches)[batchId].settled then Err(Module(BatchAlreadySettled))
        else if old(rewardBatches)[batchId].coordinator != origin.who then Err(Module(NotAuthorized))
        else if MAX_PROVIDERS_PER_BATCH < |rewards| then Err(Module(TooManyProviders))
        else if FirstInvalid(rewards).Some? then Err(Module(FirstInvalid(rewards).value))
        else if old(rewardBatches)[batchId].totalBounty < SaturatingRewardSum(rewards) then Err(Module(InvalidRewardAmount))
        else Ok)
      ensures res.Err? ==> unchanged(this)
      ensures res.Ok? ==>
        && batchRewards == old(batchRewards)[batchId := Record(EntriesIn(old(batchRewards), batchId), rewards)]
        && pendingRewards == Credit(old(pendingRewards), rewards)
        && rewardBatches == old(rewardBatches)
        && totalRewardsDistributed == old(totalRewardsDistributed) && platformFeesCollected == old(platformFeesCollected)
        && lastSettlementBlock == old(lastSettlementBlock)
    {
      if !origin.Signed? { return Err(BadOrigin); }
      if batchId !in rewardBatches { return Err(Module(BatchNotFound)); }
      var batch := rewardBatches[batchId];
      if batch.settled { return Err(Module(BatchAlreadySettled)); }
      if batch.coordinator != origin.who { return Err(Module(NotAuthorized)); }
      if MAX_PROVIDERS_PER_BATCH < |rewards| { return Err(Module(TooManyProviders)); }
      var refused, total, entries, pend := Allocate(rewards, EntriesIn(batchRewards, batchId), pendingRewards);
      if refused.Some? { return Err(Module(refused.value)); }
      if batch.totalBounty < total { return Err(Module(InvalidRewardAmount)); }
      SubmitKeepsValid(batchRewards, rewardBatches, batchId, rewards);
      Commit(rewardBatches, batchRewards[batchId := entries], pend, totalRewardsDistributed, lastSettlementBlock, platformFeesCollected);
      res := Ok;
    }

    /**
      * `settle_batch`: root settles one due batch, paying every entry's net reward out of the
      * escrow and collecting the fees; any failed payout rolls the whole call back. Each entry
      * is first cut down to what is still pending for its provider (see `Settleable`), so that
      * a provider's free balance plus pending reward never grows.
      */
    method SettleBatch(origin: Origin, batchId: Hash, now: nat, bal: Balances)
      returns (res: DispatchResult<RewardError>, bal': Balances)
      requires Valid() && now <= U32_MAX
      modifies this
      ensures Valid()
      ensures res == (
        if !origin.Root? then Err(BadOrigin)
        else if batchId !in old(rewardBatches) then Err(Module(BatchNotFound))
        else if old(rewardBatches)[batchId].settled then Err(Module(BatchAlreadySettled))
        else if now < SettlementDue(old(rewardBatches)[batchId].createdAt) then Err(Module(SettlementTooEarly))
        else if Free(bal, ESCROW) < EscrowOutflow(Settleable(EntriesIn(old(batchRewards), batchId), old(pendingRewards)))
          then Err(Currency(InsufficientBalance))
        else Ok)
      ensures res.Err? ==> unchanged(this) && bal' == bal
      ensures res.Ok? ==>
        && rewardBatches == old(rewardBatches)[batchId := old(rewardBatches)[batchId].(settled := true)]
        && batchRewards == old(batchRewards)
        && lastSettlementBlock == now
        && SettledBatch(Settleable(EntriesIn(old(batchRewards), batchId), old(pendingRewards)), bal, bal',
                        old(pendingRewards), pendingRewards,
                        old(platformFeesCollected), platformFeesCollected, old(totalRewardsDistributed), totalRewardsDistributed)
        && (forall a :: a != ESCROW ==> Free(bal', a) + PendingOf(pendingRewards, a) <= Free(bal, a) + PendingOf(old(pendingRewards), a))
    {
      bal' := bal;
      if !origin.Root? { return Err(BadOrigin), bal'; }
      if batchId !in rewardBatches { return Err(Module(BatchNotFound)), bal'; }
      var batch := rewardBatches[batchId];
      if batch.settled { return Err(Module(BatchAlreadySettled)), bal'; }
      if now < SettlementDue(batch.createdAt) { return Err(Module(SettlementTooEarly)), bal'; }
      var entries := Settleable(EntriesIn(batchRewards, batchId), pendingRewards);
      var ok, paid, pend, fees, distributed := PayBatch(entries, bal, pendingRewards, platformFeesCollected, totalRewardsDistributed);
      if !ok { return Err(Currency(InsufficientBalance)), bal'; }
      SettledBatchBounded(entries, bal, paid, pendingRewards, pend, platformFeesCollected, fees, totalRewardsDistributed, distributed);
      SettlementCoveredByPending(EntriesIn(batchRewards, batchId), bal, paid, pendingRewards, pend,
                                 platformFeesCollected, fees, totalRewardsDistributed, distributed);
      SettleOneKeepsValid(batchRewards, rewardBatches, batchId);
      Commit(rewardBatches[batchId := batch.(settled := true)], batchRewards, pend, distributed, now, fees);
      res, bal' := Ok, paid;
    }

    /** `claim_rewards`: a provider withdraws its whole pending balance from the escrow. */
    method ClaimRewards(origin: Origin, bal: Balances) returns (res: DispatchResult<RewardError>, bal': Balances)
      requires Valid()
      modifies this
      ensures Valid()
      ensures res == (
        if !origin.Signed? then Err(BadOrigin)
        else if PendingOf(old(pendingRewards), origin.who) == 0 then Err(Module(NoRewardsToClaim))
        else if origin.who != ESCROW && Free(bal, ESCROW) < PendingOf(old(pendingRewards), origin.who) then Err(Currency(InsufficientBalance))
        else Ok)
      ensures res.Err? ==> unchanged(this) && bal' == bal
      ensures res.Ok? ==>
        && pendingRewards == old(pendingRewards) - {origin.who}
        && totalRewardsDistributed == SaturatingAdd(old(totalRewardsDistributed), PendingOf(old(pendingRewards), origin.who), U128_MAX)
        && bal' == Transfer(bal, ESCROW, origin.who, PendingOf(old(pendingRewards), origin.who)).value
        && rewardBatches == old(rewardBatches) && batchRewards == old(batchRewards)
        && platformFeesCollected == old(platformFeesCollected) && lastSettlementBlock == old(lastSettlementBlock)
    {
      bal' := bal;
      if !origin.Signed? { return Err(BadOrigin), bal'; }
      var provider := origin.who;
      var pending := PendingOf(pendingRewards, provider);
      if pending == 0 { return Err(Module(NoRewardsToClaim)), bal'; }
      var moved := Transfer(bal, ESCROW, provider, pending);
      if moved.Failure? { return Err(Currency(moved.error)), bal'; }
      pendingRewards := pendingRewards - {provider};
      totalRewardsDistributed := SaturatingAdd(totalRewardsDistributed, pending, U128_MAX);
      res, bal' := Ok, moved.value;
    }

    /**
      * `periodic_settlement`: anyone may, once per settlement period, settle every unsettled
      * batch that is due. Failed payouts are skipped, the fee and payout counters are left
      * alone, and the pending balances are reduced by the gross amounts regardless.
      */
    method PeriodicSettlement(origin: Origin, now: nat, bal: Balances)
      returns (res: DispatchResult<RewardError>, bal': Balances, batchesSettled: nat)
      requires Valid() && now <= U32_MAX
      modifies this
      ensures Valid()
      ensures res == (
        if !origin.Signed? then Err(BadOrigin)
        else if now < SettlementDue(old(lastSettlementBlock)) then Err(Module(SettlementTooEarly))
        else Ok)
      ensures res.Err? ==> unchanged(this) && bal' == bal && batchesSettled == 0
      ensures res.Ok? ==>
        && rewardBatches == MarkSettled(old(rewardBatches), DueBatches(old(rewardBatches), now))
        && batchesSettled == |DueBatches(old(rewardBatches), now)|
        && lastSettlementBlock == now
        && batchRewards == old(batchRewards)
        && totalRewardsDistributed == old(totalRewardsDistributed) && platformFeesCollected == old(platformFeesCollected)
        && SweepPaid(batchRewards, bal, DueBatches(old(rewardBatches), now), bal')
        && (SumOf(DueBatches(old(rewardBatches), now), OutflowF(batchRewards)) <= Free(bal, ESCROW) ==>
              SweepPaidInFull(batchRewards, bal, DueBatches(old(rewardBatches), now), bal'))
        && SweepPending(batchRewards, old(pendingRewards), DueBatches(old(rewardBatches), now), pendingRewards)
    {
      bal', batchesSettled := bal, 0;
      if !origin.Signed? { return Err(BadOrigin), bal', batchesSettled; }
      if now < SettlementDue(lastSettlementBlock) { return Err(Module(SettlementTooEarly)), bal', batchesSettled; }
      var batches, count, swept, pend, due := Sweep(batchRewards, rewardBatches, now, bal, pendingRewards,
        SumOf(DueBatches(rewardBatches, now), OutflowF(batchRewards)) <= Free(bal, ESCROW));
      SweepPendingBounded(batchRewards, pendingRewards, DueBatches(rewardBatches, now), pend);
      MarkSettledKeepsValid(batchRewards, rewardBatches, DueBatches(rewardBatches, now));
      Commit(batches, batchRewards, pend, totalRewardsDistributed, now, platformFeesCollected);
      res, bal', batchesSettled := Ok, swept, count;
    }
  }
}
