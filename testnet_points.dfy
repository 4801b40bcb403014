/**
  * The testnet-points pallet: the root origin records point-earning activities per account,
  * keeps per-account statistics and activity logs, a participant count, referral links,
  * verification flags, an early-bird cutoff and a leaderboard of the top 100 accounts.
  */
module TestnetPoints {
  import opened Frame
  import opened Leaderboard

  /** The bound of an activity's metadata (`BoundedVec<u8, ConstU32<256>>`). */
  const MAX_METADATA_LEN: nat := 256

  /** Multipliers are in basis points: 10000 is 1x. */
  const BASIS_POINTS: nat := 10000

  /** `T::Moment`, the timestamp type; only compared. */
  type Moment = nat

  datatype ActivityType =
    | FaucetClaim
    | TaskCreated
    | TaskCompleted
    | GPUProvided
    | ValidationPerformed
    | GovernanceVoted
    | BugReported
    | ReferralSuccess
    | LiquidityProvided
    | FeatureTested

  datatype ActivityRecord = ActivityRecord(activityType: ActivityType, points: nat, timestamp: Moment, metadata: seq<byte>)

  datatype UserStats = UserStats(
    totalPoints: nat,
    tasksCreated: nat,
    tasksCompleted: nat,
    gpuHoursProvided: nat,
    governanceParticipations: nat,
    bugsReported: nat,
    referrals: nat,
    firstActivity: Option<Moment>,
    lastActivity: Option<Moment>,
    isVerified: bool)

  /** `UserStats::default()`, what a `ValueQuery` read of an absent account yields. */
  const DEFAULT_STATS: UserStats := UserStats(0, 0, 0, 0, 0, 0, 0, None, None, false)

  /** The pallet's configuration constants, all `u32`. */
  datatype Config = Config(maxActivitiesPerUser: nat, earlyBirdMultiplier: nat, gpuProviderMultiplier: nat, bugReporterMultiplier: nat)

  predicate ConfigValid(c: Config)
  {
    c.maxActivitiesPerUser <= U32_MAX && c.earlyBirdMultiplier <= U32_MAX
    && c.gpuProviderMultiplier <= U32_MAX && c.bugReporterMultiplier <= U32_MAX
  }

  datatype PointsError =
    | AlreadyClaimedFaucet
    | AlreadyVerified
    | InvalidReferral
    | TooManyActivities
    | ActivityNotAllowed
    | NotVerified

  // ---------------------------------------------------------------------------------------
  // `calculate_points`
  // ---------------------------------------------------------------------------------------

  function BasePoints(a: ActivityType): (r: nat)
    ensures 10 <= r <= 1000
  {
    match a
    case FaucetClaim => 10
    case TaskCreated => 100
    case TaskCompleted => 500
    case GPUProvided => 50
    case ValidationPerformed => 200
    case GovernanceVoted => 50
    case BugReported => 1000
    case ReferralSuccess => 100
    case LiquidityProvided => 300
    case FeatureTested => 150
  }

  /** The early-bird bonus applies when the account's first activity precedes the cutoff. */
  predicate EarlyBird(cutoff: Option<Moment>, stats: UserStats)
  {
    cutoff.Some? && stats.firstActivity.Some? && stats.firstActivity.value < cutoff.value
  }

  /** The bonuses that apply, added up (without the saturation of the `u32` multiplier). */
  function Bonus(config: Config, cutoff: Option<Moment>, stats: UserStats): nat
  {
    (if EarlyBird(cutoff, stats) then config.earlyBirdMultiplier else 0)
    + (if stats.gpuHoursProvided > 0 then config.gpuProviderMultiplier else 0)
    + (if stats.bugsReported > 0 then config.bugReporterMultiplier else 0)
  }

  /** The multiplier in basis points: 10000, raised by each bonus that applies, saturating. */
  function Multiplier(config: Config, cutoff: Option<Moment>, stats: UserStats): (m: nat)
    ensures BASIS_POINTS <= m <= U32_MAX
    ensures m == Min(BASIS_POINTS + Bonus(config, cutoff, stats), U32_MAX)
  {
    var early := if EarlyBird(cutoff, stats) then SaturatingAdd(BASIS_POINTS, config.earlyBirdMultiplier, U32_MAX) else BASIS_POINTS;
    var gpu := if stats.gpuHoursProvided > 0 then SaturatingAdd(early, config.gpuProviderMultiplier, U32_MAX) else early;
    if stats.bugsReported > 0 then SaturatingAdd(gpu, config.bugReporterMultiplier, U32_MAX) else gpu
  }

  /**
    * The points an activity earns, given the statistics BEFORE it is recorded: the base points
    * scaled by the multiplier, the product saturating at `u32::MAX`, divided by 10000.
    */
  function CalculatePoints(config: Config, cutoff: Option<Moment>, stats: UserStats, activity: ActivityType): (r: nat)
    ensures BasePoints(activity) <= r <= U32_MAX / BASIS_POINTS
  {
    var base := BasePoints(activity);
    var m := Multiplier(config, cutoff, stats);
    assert base * BASIS_POINTS <= base * m;
    SaturatingMul(base, m, U32_MAX) / BASIS_POINTS
  }

  /** Without saturation, the points are the base points times (10000 + bonuses) / 10000. */
  lemma PointsScaleWithBonus(config: Config, cutoff: Option<Moment>, stats: UserStats, activity: ActivityType)
    requires BasePoints(activity) * (BASIS_POINTS + Bonus(config, cutoff, stats)) <= U32_MAX
    ensures CalculatePoints(config, cutoff, stats, activity)
         == BasePoints(activity) * (BASIS_POINTS + Bonus(config, cutoff, stats)) / BASIS_POINTS
  {
    var base := BasePoints(activity);
    var full := BASIS_POINTS + Bonus(config, cutoff, stats);
    assert full <= base * full;
  }

  /**
    * An account's first activity earns exactly the base points, early-bird cutoff or not: the
    * points are computed from the statistics before the first activity is stamped.
    */
  lemma FirstActivityEarnsBase(config: Config, cutoff: Option<Moment>, activity: ActivityType)
    ensures CalculatePoints(config, cutoff, DEFAULT_STATS, activity) == BasePoints(activity)
  {
    assert Multiplier(config, cutoff, DEFAULT_STATS) == BASIS_POINTS;
  }

  // ---------------------------------------------------------------------------------------
  // Storage reads with `ValueQuery` defaults
  // ---------------------------------------------------------------------------------------

  function StatsOf(stats: map<AccountId, UserStats>, a: AccountId): UserStats
  {
    if a in stats then stats[a] else DEFAULT_STATS
  }

  function ActivitiesOf(acts: map<AccountId, seq<ActivityRecord>>, a: AccountId): seq<ActivityRecord>
  {
    if a in acts then acts[a] else []
  }

  /** `activities.iter().any(|a| a.activity_type == ActivityType::FaucetClaim)`. */
  predicate FaucetClaimed(acts: seq<ActivityRecord>)
  {
    exists i :: 0 <= i < |acts| && acts[i].activityType == FaucetClaim
  }

  method AnyFaucetClaim(acts: seq<ActivityRecord>) returns (found: bool)
    ensures found <==> FaucetClaimed(acts)
  {
    var i: nat := 0;
    while i < |acts|
      invariant i <= |acts|
      invariant forall j :: 0 <= j < i ==> acts[j].activityType != FaucetClaim
    {
      if acts[i].activityType == FaucetClaim {
        return true;
      }
      i := i + 1;
    }
    return false;
  }

  /** `board.iter().position(|(u, _)| u == &user)`. */
  method FindUser(board: Board, user: AccountId) returns (pos: Option<nat>)
    ensures pos == IndexOfUser(board, user)
  {
    var i: nat := 0;
    while i < |board|
      invariant i <= |board|
      invariant forall j :: 0 <= j < i ==> board[j].0 != user
    {
      if board[i].0 == user {
        return Some(i);
      }
      i := i + 1;
    }
    return None;
  }

  /**
    * The edit `update_leaderboard` makes before sorting: refresh the user's entry, append while
    * there is room, or let a higher score displace the last (lowest) entry of a full board.
    */
  method EditBoard(board: Board, user: AccountId, points: nat) returns (board': Board)
    ensures board' == Edited(board, user, points)
  {
    var pos := FindUser(board, user);
    if pos.Some? {
      board' := board[pos.value := (user, points)];
    } else if |board| < LEADERBOARD_SIZE {
      board' := board + [(user, points)];
    } else if 0 < |board| && board[|board| - 1].1 < points {
      board' := board[|board| - 1 := (user, points)];
    } else {
      board' := board;
    }
  }

  /**
    * `update_leaderboard(user, points)`, with the lowest entry displaced on a full board:
    * `Leaderboard::mutate` reads the board, edits it, sorts it and writes it back.
    */
  method UpdateBoard(board: Board, user: AccountId, points: nat) returns (board': Board)
    ensures board' == Updated(board, user, points)
  {
    board' := EditBoard(board, user, points);
    board' := SortDesc(board');
  }

  // ---------------------------------------------------------------------------------------
  // The statistics update of `record_activity`
  // ---------------------------------------------------------------------------------------

  predicate StatsBounded(s: UserStats)
  {
    && s.totalPoints <= U32_MAX && s.tasksCreated <= U32_MAX && s.tasksCompleted <= U32_MAX
    && s.gpuHoursProvided <= U32_MAX && s.governanceParticipations <= U32_MAX
    && s.bugsReported <= U32_MAX && s.referrals <= U32_MAX
  }

  /** The counter an activity type bumps, if any. */
  function Counter(s: UserStats, a: ActivityType): Option<nat>
  {
    match a
    case TaskCreated => Some(s.tasksCreated)
    case TaskCompleted => Some(s.tasksCompleted)
    case GPUProvided => Some(s.gpuHoursProvided)
    case GovernanceVoted => Some(s.governanceParticipations)
    case BugReported => Some(s.bugsReported)
    case ReferralSuccess => Some(s.referrals)
    case _ => None
  }

  /** The statistics after recording `activity` worth `points` at `now`. */
  function Bumped(s: UserStats, activity: ActivityType, points: nat, now: Moment): (r: UserStats)
    requires StatsBounded(s)
    ensures StatsBounded(r)
    ensures r.totalPoints == SaturatingAdd(s.totalPoints, points, U32_MAX)
    ensures forall a: ActivityType :: Counter(r, a) == if a == activity && Counter(s, a).Some?
      then Some(SaturatingAdd(Counter(s, a).value, 1, U32_MAX)) else Counter(s, a)
    ensures r.firstActivity == (if s.firstActivity.None? then Some(now) else s.firstActivity)
    ensures r.lastActivity == Some(now) && r.isVerified == s.isVerified
  {
    var t := s.(totalPoints := SaturatingAdd(s.totalPoints, points, U32_MAX));
    var c := match activity
      case TaskCreated => t.(tasksCreated := SaturatingAdd(t.tasksCreated, 1, U32_MAX))
      case TaskCompleted => t.(tasksCompleted := SaturatingAdd(t.tasksCompleted, 1, U32_MAX))
      case GPUProvided => t.(gpuHoursProvided := SaturatingAdd(t.gpuHoursProvided, 1, U32_MAX))
      case GovernanceVoted => t.(governanceParticipations := SaturatingAdd(t.governanceParticipations, 1, U32_MAX))
      case BugReported => t.(bugsReported := SaturatingAdd(t.bugsReported, 1, U32_MAX))
      case ReferralSuccess => t.(referrals := SaturatingAdd(t.referrals, 1, U32_MAX))
      case _ => t;
    c.(firstActivity := if c.firstActivity.None? then Some(now) else c.firstActivity, lastActivity := Some(now))
  }

  // ---------------------------------------------------------------------------------------
  // The storage `record_activity` reads and writes, as a value, and its invariant
  // ---------------------------------------------------------------------------------------

  /** The storage items other than the referral links. */
  datatype Ledger = Ledger(
    userPoints: map<AccountId, nat>,
    userActivities: map<AccountId, seq<ActivityRecord>>,
    userStats: map<AccountId, UserStats>,
    totalPoints: nat,
    participantCount: nat,
    verifiedUsers: set<AccountId>,
    earlyBirdCutoff: Option<Moment>,
    leaderboard: Board)

  /**
    * Points: the total is a `u32` bounding every account's points, and every account's points
    * mirror the total in its statistics (both are saturating sums of the same awards).
    */
  ghost predicate PointsValid(points: map<AccountId, nat>, stats: map<AccountId, UserStats>, total: nat)
  {
    && total <= U32_MAX
    && (forall u :: u in points ==> points[u] <= total)
    && (forall u :: PointsOf(points, u) == StatsOf(stats, u).totalPoints)
  }

  /** Statistics: bounded counters, and `is_verified` mirrors `VerifiedUsers`. */
  ghost predicate StatsValid(stats: map<AccountId, UserStats>, verified: set<AccountId>)
  {
    && (forall u :: u in stats ==> StatsBounded(stats[u]))
    && (forall u :: u in verified <==> StatsOf(stats, u).isVerified)
  }

  /** Activity logs: at most `MaxActivitiesPerUser` records, each with at most 256 bytes of metadata. */
  ghost predicate ActivitiesValid(acts: map<AccountId, seq<ActivityRecord>>, max: nat)
  {
    forall u :: u in acts ==> |acts[u]| <= max && forall k :: 0 <= k < |acts[u]| ==> |acts[u][k].metadata| <= MAX_METADATA_LEN
  }

  /** The accounts that have recorded at least one activity. */
  ghost function Participants(stats: map<AccountId, UserStats>): set<AccountId>
  {
    set u | u in stats && stats[u].firstActivity.Some?
  }

  /**
    * The invariant: points, statistics and logs as above, `ParticipantCount` counts the accounts
    * that have recorded an activity (saturating at `u32::MAX`), and the leaderboard holds the
    * top scores.
    */
  ghost predicate LedgerValid(config: Config, l: Ledger)
  {
    && PointsValid(l.userPoints, l.userStats, l.totalPoints)
    && StatsValid(l.userStats, l.verifiedUsers)
    && ActivitiesValid(l.userActivities, config.maxActivitiesPerUser)
    && l.participantCount == Min(|Participants(l.userStats)|, U32_MAX)
    && TopBoard(l.leaderboard, l.userPoints)
  }

  /** The log has room and the metadata fits: the requirements of `record_activity`'s push. */
  predicate Recordable(config: Config, l: Ledger, user: AccountId, metadata: seq<byte>)
  {
    |metadata| <= MAX_METADATA_LEN && |ActivitiesOf(l.userActivities, user)| < config.maxActivitiesPerUser
  }

  /** The points `user` earns for `activity` in ledger `l`. */
  function PointsFor(config: Config, l: Ledger, user: AccountId, activity: ActivityType): nat
  {
    CalculatePoints(config, l.earlyBirdCutoff, StatsOf(l.userStats, user), activity)
  }

  /**
    * The ledger after a successful `record_activity(user, activity, metadata)` at `now`: the
    * record appended to the user's log, the statistics bumped, a new participant counted on
    * the first activity, the points added to the user and to the total (saturating at
    * `u32::MAX`), and the leaderboard refreshed with the user's new points.
    */
  function AfterRecord(config: Config, l: Ledger, user: AccountId, activity: ActivityType, metadata: seq<byte>, now: Moment): Ledger
    requires LedgerValid(config, l)
  {
    var stats := StatsOf(l.userStats, user);
    var points := PointsFor(config, l, user, activity);
    var userTotal := SaturatingAdd(PointsOf(l.userPoints, user), points, U32_MAX);
    l.(userActivities := l.userActivities[user := ActivitiesOf(l.userActivities, user) + [ActivityRecord(activity, points, now, metadata)]],
       userStats := l.userStats[user := Bumped(stats, activity, points, now)],
       participantCount := if stats.firstActivity.None? then SaturatingAdd(l.participantCount, 1, U32_MAX) else l.participantCount,
       userPoints := l.userPoints[user := userTotal],
       totalPoints := SaturatingAdd(l.totalPoints, points, U32_MAX),
       leaderboard := Updated(l.leaderboard, user, userTotal))
  }

  /** The ledger after a successful `verify_user(user)`. */
  function AfterVerify(l: Ledger, user: AccountId): Ledger
  {
    l.(verifiedUsers := l.verifiedUsers + {user},
       userStats := l.userStats[user := StatsOf(l.userStats, user).(isVerified := true)])
  }

  lemma RecordKeepsPoints(points: map<AccountId, nat>, stats: map<AccountId, UserStats>, total: nat, user: AccountId, p: nat, s': UserStats)
    requires PointsValid(points, stats, total)
    requires s'.totalPoints == SaturatingAdd(PointsOf(points, user), p, U32_MAX)
    ensures PointsValid(points[user := SaturatingAdd(PointsOf(points, user), p, U32_MAX)], stats[user := s'], SaturatingAdd(total, p, U32_MAX))
  {
    var points' := points[user := SaturatingAdd(PointsOf(points, user), p, U32_MAX)];
    var stats' := stats[user := s'];
    forall u
      ensures PointsOf(points', u) == StatsOf(stats', u).totalPoints
    {
      if u != user {
        assert PointsOf(points', u) == PointsOf(points, u);
      }
    }
  }

  lemma RecordKeepsStats(stats: map<AccountId, UserStats>, verified: set<AccountId>, user: AccountId, s': UserStats)
    requires StatsValid(stats, verified) && StatsBounded(s') && s'.isVerified == StatsOf(stats, user).isVerified
    ensures StatsValid(stats[user := s'], verified)
  {
    forall u
      ensures u in verified <==> StatsOf(stats[user := s'], u).isVerified
    {
      if u != user {
        assert StatsOf(stats[user := s'], u) == StatsOf(stats, u);
      }
    }
  }

  lemma RecordKeepsActivities(acts: map<AccountId, seq<ActivityRecord>>, max: nat, user: AccountId, r: ActivityRecord)
    requires ActivitiesValid(acts, max) && |ActivitiesOf(acts, user)| < max && |r.metadata| <= MAX_METADATA_LEN
    ensures ActivitiesValid(acts[user := ActivitiesOf(acts, user) + [r]], max)
  {
    var log := ActivitiesOf(acts, user) + [r];
    forall k | 0 <= k < |log|
      ensures |log[k].metadata| <= MAX_METADATA_LEN
    {
      if k < |log| - 1 {
        assert log[k] == acts[user][k];
      }
    }
  }

  lemma CardinalityWith<T>(s: set<T>, x: T)
    ensures |s + {x}| == if x in s then |s| else |s| + 1
  {
    if x in s {
      assert s + {x} == s;
    }
  }

  /** Stamping an account's first activity makes it a participant. */
  lemma StampedParticipant(stats: map<AccountId, UserStats>, user: AccountId, s': UserStats)
    requires s'.firstActivity.Some?
    ensures Participants(stats[user := s']) == Participants(stats) + {user}
    ensures user in Participants(stats) <==> StatsOf(stats, user).firstActivity.Some?
  {
  }

  /** Stamping an account's first activity adds it to the participants; later ones do not. */
  lemma RecordCountsParticipant(stats: map<AccountId, UserStats>, user: AccountId, s': UserStats)
    requires s'.firstActivity.Some?
    ensures |Participants(stats[user := s'])|
         == if StatsOf(stats, user).firstActivity.None? then |Participants(stats)| + 1 else |Participants(stats)|
  {
    StampedParticipant(stats, user, s');
    CardinalityWith(Participants(stats), user);
  }

  /** `record_activity` keeps the invariant. */
  lemma RecordKeepsValid(config: Config, l: Ledger, user: AccountId, activity: ActivityType, metadata: seq<byte>, now: Moment)
    requires LedgerValid(config, l) && Recordable(config, l, user, metadata)
    ensures LedgerValid(config, AfterRecord(config, l, user, activity, metadata, now))
  {
    var stats := StatsOf(l.userStats, user);
    var points := PointsFor(config, l, user, activity);
    var stats' := Bumped(stats, activity, points, now);
    var userTotal := SaturatingAdd(PointsOf(l.userPoints, user), points, U32_MAX);
    RecordKeepsPoints(l.userPoints, l.userStats, l.totalPoints, user, points, stats');
    RecordKeepsStats(l.userStats, l.verifiedUsers, user, stats');
    RecordCountsParticipant(l.userStats, user, stats');
    RecordKeepsActivities(l.userActivities, config.maxActivitiesPerUser, user, ActivityRecord(activity, points, now, metadata));
    UpdatedKeepsTop(l.leaderboard, l.userPoints, user, userTotal);
  }

  /** `verify_user` keeps the invariant. */
  lemma VerifyKeepsValid(config: Config, l: Ledger, user: AccountId)
    requires LedgerValid(config, l)
    ensures LedgerValid(config, AfterVerify(l, user))
  {
    var stats' := l.userStats[user := StatsOf(l.userStats, user).(isVerified := true)];
    forall u
      ensures u in l.verifiedUsers + {user} <==> StatsOf(stats', u).isVerified
    {
      if u != user {
        assert StatsOf(stats', u) == StatsOf(l.userStats, u);
      }
    }
    forall u
      ensures PointsOf(l.userPoints, u) == StatsOf(stats', u).totalPoints
    {
      if u != user {
        assert StatsOf(stats', u) == StatsOf(l.userStats, u);
      }
    }
    assert Participants(stats') == Participants(l.userStats);
  }

  /** After a successful faucet claim the log holds one, so a second claim is refused. */
  lemma FaucetClaimRecorded(config: Config, l: Ledger, user: AccountId, now: Moment)
    requires LedgerValid(config, l)
    ensures FaucetClaimed(ActivitiesOf(AfterRecord(config, l, user, FaucetClaim, [], now).userActivities, user))
  {
    var acts := ActivitiesOf(AfterRecord(config, l, user, FaucetClaim, [], now).userActivities, user);
    assert acts[|acts| - 1].activityType == FaucetClaim;
  }

  /** Nobody is their own referrer. */
  ghost predicate NoSelfReferral(referrers: map<AccountId, AccountId>)
  {
    forall u :: u in referrers ==> referrers[u] != u
  }

  // ---------------------------------------------------------------------------------------
  // The pallet
  // ---------------------------------------------------------------------------------------

  class TestnetPoints {
    const config: Config
    var userPoints: map<AccountId, nat>
    var userActivities: map<AccountId, seq<ActivityRecord>>
    var userStats: map<AccountId, UserStats>
    var totalPoints: nat
    var participantCount: nat
    var referrers: map<AccountId, AccountId>
    var verifiedUsers: set<AccountId>
    var earlyBirdCutoff: Option<Moment>
    var leaderboard: Board

    /** The storage items other than the referral links. */
    function Snapshot(): Ledger
      reads this`userPoints, this`userActivities, this`userStats, this`totalPoints, this`participantCount
      reads this`verifiedUsers, this`earlyBirdCutoff, this`leaderboard
    {
      Ledger(userPoints, userActivities, userStats, totalPoints, participantCount, verifiedUsers, earlyBirdCutoff, leaderboard)
    }

    ghost predicate Valid()
      reads this
    {
      ConfigValid(config) && LedgerValid(config, Snapshot()) && NoSelfReferral(referrers)
    }

    /** Genesis: empty storage. */
    constructor(config: Config)
      requires ConfigValid(config)
      ensures Valid() && this.config == config
      ensures Snapshot() == Ledger(map[], map[], map[], 0, 0, {}, None, []) && referrers == map[]
    {
      this.config := config;
      userPoints := map[];
      userActivities := map[];
      userStats := map[];
      totalPoints := 0;
      participantCount := 0;
      referrers := map[];
      verifiedUsers := {};
      earlyBirdCutoff := None;
      leaderboard := [];
      assert Participants(map[]) == {};
    }

    /** Writes the storage items `record_activity` changes. */
    method Commit(l: Ledger, board: Board)
      requires ConfigValid(config) && LedgerValid(config, l) && NoSelfReferral(referrers)
      requires l.verifiedUsers == verifiedUsers && l.earlyBirdCutoff == earlyBirdCutoff && l.leaderboard == board
      modifies this`userPoints, this`userActivities, this`userStats, this`totalPoints, this`participantCount, this`leaderboard
      ensures Valid() && Snapshot() == l
    {
      leaderboard := board;
      userPoints := l.userPoints;
      userActivities := l.userActivities;
      userStats := l.userStats;
      totalPoints := l.totalPoints;
      participantCount := l.participantCount;
    }

    /** The body of `record_activity` once the origin has been checked and the push fits. */
    method Record(user: AccountId, activity: ActivityType, metadata: seq<byte>, now: Moment)
      requires Valid() && Recordable(config, Snapshot(), user, metadata)
      modifies this
      ensures Valid() && Snapshot() == AfterRecord(config, old(Snapshot()), user, activity, metadata, now)
      ensures referrers == old(referrers)
    {
      var next := AfterRecord(config, Snapshot(), user, activity, metadata, now);
      RecordKeepsValid(config, Snapshot(), user, activity, metadata, now);
      var board := UpdateBoard(leaderboard, user, next.userPoints[user]);
      Commit(next, board);
    }

    /**
      * `record_activity`: root only; fails with `TooManyActivities` when the metadata exceeds
      * 256 bytes or the user's log is full; otherwise records the activity.
      */
    method RecordActivity(origin: Origin, user: AccountId, activity: ActivityType, metadata: seq<byte>, now: Moment)
      returns (res: DispatchResult<PointsError>)
      requires Valid()
      modifies this
      ensures Valid()
      ensures res == if origin != Root then Err(BadOrigin)
        else if !Recordable(config, old(Snapshot()), user, metadata) then Err(Module(TooManyActivities))
        else Ok
      ensures res.Err? ==> unchanged(this)
      ensures res.Ok? ==> Snapshot() == AfterRecord(config, old(Snapshot()), user, activity, metadata, now)
      ensures referrers == old(referrers)
    {
      if origin != Root {
        return Err(BadOrigin);
      }
      if !Recordable(config, Snapshot(), user, metadata) {
        return Err(Module(TooManyActivities));
      }
      Record(user, activity, metadata, now);
      return Ok;
    }

    /**
      * `verify_user`: root only; fails with `AlreadyVerified` for a verified account; otherwise
      * marks it verified in `VerifiedUsers` and in its statistics (creating default statistics
      * for an account without any).
      */
    method VerifyUser(origin: Origin, user: AccountId) returns (res: DispatchResult<PointsError>)
      requires Valid()
      modifies this
      ensures Valid()
      ensures res == if origin != Root then Err(BadOrigin)
        else if user in old(verifiedUsers) then Err(Module(AlreadyVerified))
        else Ok
      ensures res.Err? ==> unchanged(this)
      ensures res.Ok? ==> Snapshot() == AfterVerify(old(Snapshot()), user)
      ensures referrers == old(referrers)
    {
      if origin != Root {
        return Err(BadOrigin);
      }
      if user in verifiedUsers {
        return Err(Module(AlreadyVerified));
      }
      VerifyKeepsValid(config, Snapshot(), user);
      verifiedUsers := verifiedUsers + {user};
      userStats := userStats[user := StatsOf(userStats, user).(isVerified := true)];
      return Ok;
    }

    /**
      * `record_referral`: root only; fails with `InvalidReferral` for a self-referral or an
      * account that already has a referrer; otherwise links the referred account to its
      * referrer and records a `ReferralSuccess` for the referrer, the whole call failing with
      * `TooManyActivities` when the referrer's log is full.
      */
    method RecordReferral(origin: Origin, referred: AccountId, referrer: AccountId, now: Moment)
      returns (res: DispatchResult<PointsError>)
      requires Valid()
      modifies this
      ensures Valid()
      ensures res == if origin != Root then Err(BadOrigin)
        else if referred == referrer || referred in old(referrers) then Err(Module(InvalidReferral))
        else if !Recordable(config, old(Snapshot()), referrer, []) then Err(Module(TooManyActivities))
        else Ok
      ensures res.Err? ==> unchanged(this)
      ensures res.Ok? ==> Snapshot() == AfterRecord(config, old(Snapshot()), referrer, ReferralSuccess, [], now)
      ensures res.Ok? ==> referrers == old(referrers)[referred := referrer]
    {
      if origin != Root {
        return Err(BadOrigin);
      }
      if referred == referrer || referred in referrers {
        return Err(Module(InvalidReferral));
      }
      if !Recordable(config, Snapshot(), referrer, []) {
        return Err(Module(TooManyActivities));
      }
      referrers := referrers[referred := referrer];
      Record(referrer, ReferralSuccess, [], now);
      return Ok;
    }

    /** `set_early_bird_cutoff`: root only; sets the cutoff. */
    method SetEarlyBirdCutoff(origin: Origin, timestamp: Moment) returns (res: DispatchResult<PointsError>)
      requires Valid()
      modifies this
      ensures Valid()
      ensures res == if origin != Root then Err(BadOrigin) else Ok
      ensures res.Err? ==> unchanged(this)
      ensures res.Ok? ==> Snapshot() == old(Snapshot()).(earlyBirdCutoff := Some(timestamp))
      ensures referrers == old(referrers)
    {
      if origin != Root {
        return Err(BadOrigin);
      }
      earlyBirdCutoff := Some(timestamp);
      return Ok;
    }

    /**
      * `claim_faucet`: root only; fails with `AlreadyClaimedFaucet` when the user's log holds a
      * faucet claim; otherwise records a `FaucetClaim`, failing with `TooManyActivities` when the
      * log is full. After a success the log holds a faucet claim, so a second claim fails.
      */
    method ClaimFaucet(origin: Origin, user: AccountId, now: Moment) returns (res: DispatchResult<PointsError>)
      requires Valid()
      modifies this
      ensures Valid()
      ensures res == if origin != Root then Err(BadOrigin)
        else if FaucetClaimed(ActivitiesOf(old(userActivities), user)) then Err(Module(AlreadyClaimedFaucet))
        else if !Recordable(config, old(Snapshot()), user, []) then Err(Module(TooManyActivities))
        else Ok
      ensures res.Err? ==> unchanged(this)
      ensures res.Ok? ==> Snapshot() == AfterRecord(config, old(Snapshot()), user, FaucetClaim, [], now)
      ensures res.Ok? ==> FaucetClaimed(ActivitiesOf(userActivities, user))
      ensures referrers == old(referrers)
    {
      if origin != Root {
        return Err(BadOrigin);
      }
      var claimed := AnyFaucetClaim(ActivitiesOf(userActivities, user));
      if claimed {
        return Err(Module(AlreadyClaimedFaucet));
      }
      if !Recordable(config, Snapshot(), user, []) {
        return Err(Module(TooManyActivities));
      }
      FaucetClaimRecorded(config, Snapshot(), user, now);
      Record(user, FaucetClaim, [], now);
      return Ok;
    }
  }
}
