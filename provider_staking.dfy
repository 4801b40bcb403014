/**
  * The stake ledger: compute providers register with a reserved stake and a hardware
  * descriptor, carry a reputation in [0, 1000] and a status, leave through an unbonding
  * period, and can be slashed by the root authority (stake, reputation, auto-suspension and
  * an audit record of the amount actually slashed).
  */
module ProviderStaking {
  import opened Frame
  import opened Currency

  const MINIMUM_STAKE: nat := 1000 * GLIN
  const MAX_PROVIDERS: nat := 10000
  /** `SlashPercentage`, in percent. */
  const SLASH_PERCENT: nat := 10
  /** Seven days of 6-second blocks. */
  const UNSTAKING_PERIOD: nat := 7 * 14400
  const MAX_GPU_MODEL_LEN: nat := 100
  const INITIAL_REPUTATION: nat := 500
  const MAX_REPUTATION: nat := 1000
  const SUSPENSION_THRESHOLD: nat := 200
  const SLASH_REPUTATION_PENALTY: nat := 100

  datatype ProviderStatus = Active | Idle | Busy | Offline | Suspended | Unbonding

  datatype GpuTier = Consumer | Prosumer | Professional

  datatype HardwareInfo = HardwareInfo(
    gpuModel: seq<byte>,
    gpuTier: GpuTier,
    vramGb: nat,
    computeCapability: nat,
    bandwidthMbps: nat,
    cpuCores: nat,
    ramGb: nat)

  datatype Provider = Provider(
    stake: nat,
    status: ProviderStatus,
    hardwareInfo: HardwareInfo,
    reputationScore: nat,
    totalTasksCompleted: nat,
    totalGradientsComputed: nat,
    totalTokensEarned: nat,
    registeredAt: nat,
    lastActive: nat,
    unbondingAt: Option<nat>)

  datatype SlashReason = MaliciousGradient | FalseHardwareClaim | Downtime | ValidationFailure

  datatype StakingError =
    | ProviderNotFound | ProviderAlreadyRegistered | StakeBelowMinimum | TooManyProviders | InvalidHardwareSpec
    | ProviderNotActive | StillUnbonding | NothingToWithdraw | InvalidGpuModel | InsufficientStake

  /** `SlashPercentage * stake`: ten percent of the stake, rounded down. */
  function SlashAmount(stake: nat): (r: nat)
    ensures r <= stake
    ensures 100 * r <= SLASH_PERCENT * stake < 100 * (r + 1)
  {
    stake * SLASH_PERCENT / 100
  }

  /** Whether a provider with this reputation and remaining stake is forced into Suspended. */
  predicate MustSuspend(reputation: nat, stake: nat)
  {
    reputation < SUSPENSION_THRESHOLD || stake < MINIMUM_STAKE
  }

  /**
    * The provider entry after a slash: the stake loses its slash amount (never below zero),
    * the reputation loses 100 points (never below zero), and the status becomes Suspended
    * when either falls below its threshold; nothing else changes.
    */
  function Slashed(p: Provider): (r: Provider)
    ensures r.stake + SlashAmount(p.stake) == p.stake
    ensures r.reputationScore == SaturatingSub(p.reputationScore, SLASH_REPUTATION_PENALTY) <= p.reputationScore
    ensures r.status == if MustSuspend(r.reputationScore, r.stake) then Suspended else p.status
    ensures r == p.(stake := r.stake, reputationScore := r.reputationScore, status := r.status)
  {
    var remaining := SaturatingSub(p.stake, SlashAmount(p.stake));
    var reputation := SaturatingSub(p.reputationScore, SLASH_REPUTATION_PENALTY);
    p.(stake := remaining, reputationScore := reputation,
       status := if MustSuspend(reputation, remaining) then Suspended else p.status)
  }

  /** A provider registered with the minimum stake, slashed once, keeps 900 GLIN and 400 reputation, and 900 GLIN is below the minimum stake, so it is suspended. */
  lemma SlashAtMinimumStake(p: Provider)
    requires p.stake == MINIMUM_STAKE && p.reputationScore == INITIAL_REPUTATION && p.status == Active
    ensures Slashed(p).stake == 900 * GLIN && Slashed(p).reputationScore == 400 && Slashed(p).status == Suspended
  {
  }

  /** What the status of every provider entry satisfies if it was reached by unbonding. */
  ghost predicate UnbondingHasDeadline(providers: map<AccountId, Provider>)
  {
    forall a :: a in providers && providers[a].status == Unbonding ==> providers[a].unbondingAt.Some?
  }

  class ProviderStaking {
    var providers: map<AccountId, Provider>
    var providerCount: nat
    var slashHistory: map<(AccountId, nat), (SlashReason, nat)>

    ghost predicate Valid()
      reads this
    {
      && providerCount == |providers.Keys| <= MAX_PROVIDERS
      && forall a :: a in providers ==>
           && providers[a].reputationScore <= MAX_REPUTATION
           && 0 < providers[a].hardwareInfo.vramGb
           && |providers[a].hardwareInfo.gpuModel| <= MAX_GPU_MODEL_LEN
    }

    constructor ()
      ensures Valid() && providers == map[] && providerCount == 0 && slashHistory == map[]
    {
      providers, providerCount, slashHistory := map[], 0, map[];
    }

    /** `register_provider`: reserve the stake and create an Active entry with neutral reputation. */
    method RegisterProvider(origin: Origin, stakeAmount: nat, hardwareInfo: HardwareInfo, now: nat, bal: Balances)
      returns (res: DispatchResult<StakingError>, bal': Balances)
      requires Valid()
      modifies this
      ensures Valid()
      ensures res == (
        if !origin.Signed? then Err(BadOrigin)
        else if stakeAmount < MINIMUM_STAKE then Err(Module(StakeBelowMinimum))
        else if origin.who in old(providers) then Err(Module(ProviderAlreadyRegistered))
        else if MAX_PROVIDERS <= old(providerCount) then Err(Module(TooManyProviders))
        else if hardwareInfo.vramGb == 0 then Err(Module(InvalidHardwareSpec))
        else if Free(bal, origin.who) < stakeAmount then Err(Currency(InsufficientBalance))
        else if MAX_GPU_MODEL_LEN < |hardwareInfo.gpuModel| then Err(Module(InvalidGpuModel))
        else Ok)
      ensures res.Err? ==> unchanged(this) && bal' == bal
      ensures res.Ok? ==>
        && providers == old(providers)[origin.who :=
             Provider(stakeAmount, Active, hardwareInfo, INITIAL_REPUTATION, 0, 0, 0, now, now, None)]
        && providerCount == old(providerCount) + 1
        && slashHistory == old(slashHistory)
        && bal' == Reserve(bal, origin.who, stakeAmount).value
      ensures UnbondingHasDeadline(old(providers)) ==> UnbondingHasDeadline(providers)
    {
      bal' := bal;
      if !origin.Signed? { return Err(BadOrigin), bal'; }
      var provider := origin.who;
      if stakeAmount < MINIMUM_STAKE { return Err(Module(StakeBelowMinimum)), bal'; }
      if provider in providers { return Err(Module(ProviderAlreadyRegistered)), bal'; }
      if MAX_PROVIDERS <= providerCount { return Err(Module(TooManyProviders)), bal'; }
      if hardwareInfo.vramGb == 0 { return Err(Module(InvalidHardwareSpec)), bal'; }
      var reserved := Reserve(bal, provider, stakeAmount);
      if reserved.Failure? { return Err(Currency(reserved.error)), bal'; }
      if MAX_GPU_MODEL_LEN < |hardwareInfo.gpuModel| { return Err(Module(InvalidGpuModel)), bal'; }
      providers := providers[provider := Provider(stakeAmount, Active, hardwareInfo, INITIAL_REPUTATION, 0, 0, 0, now, now, None)];
      providerCount := SaturatingAdd(providerCount, 1, U32_MAX);
      res, bal' := Ok, reserved.value;
    }

    /** `update_hardware`: a registered provider replaces its hardware descriptor and nothing else. */
    method UpdateHardware(origin: Origin, hardwareInfo: HardwareInfo) returns (res: DispatchResult<StakingError>)
      requires Valid()
      modifies this
      ensures Valid()
      ensures res == (
        if !origin.Signed? then Err(BadOrigin)
        else if origin.who !in old(providers) then Err(Module(ProviderNotFound))
        else if hardwareInfo.vramGb == 0 then Err(Module(InvalidHardwareSpec))
        else if MAX_GPU_MODEL_LEN < |hardwareInfo.gpuModel| then Err(Module(InvalidGpuModel))
        else Ok)
      ensures res.Err? ==> unchanged(this)
      ensures res.Ok? ==>
        && providers == old(providers)[origin.who := old(providers)[origin.who].(hardwareInfo := hardwareInfo)]
        && providerCount == old(providerCount) && slashHistory == old(slashHistory)
      ensures UnbondingHasDeadline(old(providers)) ==> UnbondingHasDeadline(providers)
    {
      if !origin.Signed? { return Err(BadOrigin); }
      var provider := origin.who;
      if provider !in providers { return Err(Module(ProviderNotFound)); }
      if hardwareInfo.vramGb == 0 { return Err(Module(InvalidHardwareSpec)); }
      if MAX_GPU_MODEL_LEN < |hardwareInfo.gpuModel| { return Err(Module(InvalidGpuModel)); }
      providers := providers[provider := providers[provider].(hardwareInfo := hardwareInfo)];
      res := Ok;
    }

    /** `start_unbonding`: enter Unbonding with a withdrawal deadline one unstaking period from now. */
    method StartUnbonding(origin: Origin, now: nat) returns (res: DispatchResult<StakingError>, unbondingAt: nat)
      requires Valid() && now <= U32_MAX
      modifies this
      ensures Valid()
      ensures res == (
        if !origin.Signed? then Err(BadOrigin)
        else if origin.who !in old(providers) then Err(Module(ProviderNotFound))
        else if old(providers)[origin.who].status == Unbonding then Err(Module(StillUnbonding))
        else Ok)
      ensures res.Err? ==> unchanged(this)
      ensures res.Ok? ==>
        && unbondingAt == SaturatingAdd(now, UNSTAKING_PERIOD, U32_MAX)
        && providers == old(providers)[origin.who :=
             old(providers)[origin.who].(status := Unbonding, unbondingAt := Some(unbondingAt))]
        && providerCount == old(providerCount) && slashHistory == old(slashHistory)
      ensures UnbondingHasDeadline(old(providers)) ==> UnbondingHasDeadline(providers)
    {
      unbondingAt := 0;
      if !origin.Signed? { return Err(BadOrigin), unbondingAt; }
      var provider := origin.who;
      if provider !in providers { return Err(Module(ProviderNotFound)), unbondingAt; }
      if providers[provider].status == Unbonding { return Err(Module(StillUnbonding)), unbondingAt; }
      unbondingAt := SaturatingAdd(now, UNSTAKING_PERIOD, U32_MAX);
      providers := providers[provider := providers[provider].(status := Unbonding, unbondingAt := Some(unbondingAt))];
      res := Ok;
    }

    /**
      * `withdraw_stake`: once the unbonding deadline is reached, unreserve the whole stake and
      * remove the provider entry.
      */
    method WithdrawStake(origin: Origin, now: nat, bal: Balances) returns (res: DispatchResult<StakingError>, bal': Balances)
      requires Valid()
      modifies this
      ensures Valid()
      ensures res == (
        if !origin.Signed? then Err(BadOrigin)
        else if origin.who !in old(providers) then Err(Module(ProviderNotFound))
        else if old(providers)[origin.who].status != Unbonding then Err(Module(ProviderNotActive))
        else if old(providers)[origin.who].unbondingAt.None? then Err(Module(NothingToWithdraw))
        else if now < old(providers)[origin.who].unbondingAt.value then Err(Module(StillUnbonding))
        else Ok)
      ensures res.Err? ==> unchanged(this) && bal' == bal
      ensures res.Ok? ==>
        && providers == old(providers) - {origin.who}
        && providerCount == old(providerCount) - 1
        && slashHistory == old(slashHistory)
        && bal' == Unreserve(bal, origin.who, old(providers)[origin.who].stake).0
      ensures UnbondingHasDeadline(old(providers)) ==> UnbondingHasDeadline(providers)
    {
      bal' := bal;
      if !origin.Signed? { return Err(BadOrigin), bal'; }
      var provider := origin.who;
      if provider !in providers { return Err(Module(ProviderNotFound)), bal'; }
      var info := providers[provider];
      if info.status != Unbonding { return Err(Module(ProviderNotActive)), bal'; }
      if info.unbondingAt.None? { return Err(Module(NothingToWithdraw)), bal'; }
      if now < info.unbondingAt.value { return Err(Module(StillUnbonding)), bal'; }
      bal' := Unreserve(bal, provider, info.stake).0;
      assert (providers - {provider}).Keys == providers.Keys - {provider};
      providers := providers - {provider};
      providerCount := SaturatingSub(providerCount, 1);
      res := Ok;
    }

    /**
      * `slash_provider` (root only): slash ten percent of the stake from the reserved balance,
      * apply the reputation penalty and suspension rule, and record the amount actually slashed.
      */
    method SlashProvider(origin: Origin, provider: AccountId, reason: SlashReason, now: nat, bal: Balances)
      returns (res: DispatchResult<StakingError>, bal': Balances, slashed: nat)
      requires Valid()
      modifies this
      ensures Valid()
      ensures res == (
        if !origin.Root? then Err(BadOrigin)
        else if provider !in old(providers) then Err(Module(ProviderNotFound))
        else Ok)
      ensures res.Err? ==> unchanged(this) && bal' == bal && slashed == 0
      ensures res.Ok? ==>
        && (bal', slashed) == SlashReserved(bal, provider, SlashAmount(old(providers)[provider].stake))
        && slashed <= Reserved(bal, provider)
        && providers == old(providers)[provider := Slashed(old(providers)[provider])]
        && slashHistory == old(slashHistory)[(provider, now) := (reason, slashed)]
        && providerCount == old(providerCount)
      ensures UnbondingHasDeadline(old(providers)) ==> UnbondingHasDeadline(providers)
    {
      bal', slashed := bal, 0;
      if !origin.Root? { return Err(BadOrigin), bal', slashed; }
      if provider !in providers { return Err(Module(ProviderNotFound)), bal', slashed; }
      var info := providers[provider];
      var slashAmount := SlashAmount(info.stake);
      bal', slashed := SlashReserved(bal, provider, slashAmount).0, SlashReserved(bal, provider, slashAmount).1;
      providers := providers[provider := Slashed(info)];
      slashHistory := slashHistory[(provider, now) := (reason, slashed)];
      res := Ok;
    }

    /** `update_reputation` (root only): set a score of at most 1000, suspending below 200. */
    method UpdateReputation(origin: Origin, provider: AccountId, newScore: nat) returns (res: DispatchResult<StakingError>)
      requires Valid()
      modifies this
      ensures Valid()
      ensures res == (
        if !origin.Root? then Err(BadOrigin)
        else if MAX_REPUTATION < newScore then Err(Module(InvalidHardwareSpec))
        else if provider !in old(providers) then Err(Module(ProviderNotFound))
        else Ok)
      ensures res.Err? ==> unchanged(this)
      ensures res.Ok? ==>
        && providers == old(providers)[provider := old(providers)[provider].(
             reputationScore := newScore,
             status := if newScore < SUSPENSION_THRESHOLD then Suspended else old(providers)[provider].status)]
        && providerCount == old(providerCount) && slashHistory == old(slashHistory)
      ensures UnbondingHasDeadline(old(providers)) ==> UnbondingHasDeadline(providers)
    {
      if !origin.Root? { return Err(BadOrigin); }
      if MAX_REPUTATION < newScore { return Err(Module(InvalidHardwareSpec)); }
      if provider !in providers { return Err(Module(ProviderNotFound)); }
      var info := providers[provider];
      providers := providers[provider := info.(reputationScore := newScore,
                                                status := if newScore < SUSPENSION_THRESHOLD then Suspended else info.status)];
      res := Ok;
    }

    /**
      * `update_status` (root only): override the status and stamp `last_active`. This is the one
      * operation that can leave an Unbonding provider without a deadline.
      */
    method UpdateStatus(origin: Origin, provider: AccountId, newStatus: ProviderStatus, now: nat)
      returns (res: DispatchResult<StakingError>)
      requires Valid()
      modifies this
      ensures Valid()
      ensures res == (
        if !origin.Root? then Err(BadOrigin)
        else if provider !in old(providers) then Err(Module(ProviderNotFound))
        else Ok)
      ensures res.Err? ==> unchanged(this)
      ensures res.Ok? ==>
        && providers == old(providers)[provider := old(providers)[provider].(status := newStatus, lastActive := now)]
        && providerCount == old(providerCount) && slashHistory == old(slashHistory)
    {
      if !origin.Root? { return Err(BadOrigin); }
      if provider !in providers { return Err(Module(ProviderNotFound)); }
      providers := providers[provider := providers[provider].(status := newStatus, lastActive := now)];
      res := Ok;
    }

    /** `is_provider`: registered exactly when a stake can be read. */
    function IsProvider(a: AccountId): (r: bool)
      reads this
      ensures r <==> GetStake(a).Some?
    {
      a in providers
    }

    /** `get_stake`. */
    function GetStake(a: AccountId): (r: Option<nat>)
      reads this
      ensures r.Some? <==> a in providers
      ensures r.Some? ==> r.value == providers[a].stake
    {
      if a in providers then Some(providers[a].stake) else None
    }

    /** `get_reputation`: present exactly for registered providers, and never above 1000. */
    function GetReputation(a: AccountId): (r: Option<nat>)
      requires Valid()
      reads this
      ensures r.Some? <==> a in providers
      ensures r.Some? ==> r.value <= MAX_REPUTATION
    {
      if a in providers then Some(providers[a].reputationScore) else None
    }
  }
}
